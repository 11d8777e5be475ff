/**
 * AbstractEntity: the identity (equals, hashCode) and the natural ordering
 * (compareTo) that every persisted entity inherits.
 */
module Entity {
  import opened Wrappers
  import opened JavaText
  import opened JavaNumbers

  /**
   * The simple name of an entity's id class, which decides how id text is
   * parsed: Long, Integer, Short, or String (whose text is the id itself).
   */
  datatype IdKind = LongKind | IntegerKind | ShortKind | StringKind

  /** An entity id: a boxed Long, Integer or Short, or a String. */
  datatype Id =
    | LongId(l: Long)
    | IntegerId(i: Int)
    | ShortId(sh: Short)
    | StringId(text: string)

  predicate HasKind(id: Id, kind: IdKind) {
    match id
    case LongId(_) => kind == LongKind
    case IntegerId(_) => kind == IntegerKind
    case ShortId(_) => kind == ShortKind
    case StringId(_) => kind == StringKind
  }

  /**
   * An entity as a value: its runtime class name (Class.getName()), its id
   * (None for a null id), the text getViewString() gives, and the rest of its
   * persistent attributes.
   */
  datatype Entity = Entity(
    className: string,
    id: Option<Id>,
    viewString: string,
    attributes: map<string, string>)

  /** The text "" + id gives: "null" for a null id, the decimal form for a number. */
  function IdText(id: Option<Id>): string {
    match id
    case None => "null"
    case Some(LongId(v)) => ToDecimal(v)
    case Some(IntegerId(v)) => ToDecimal(v)
    case Some(ShortId(v)) => ToDecimal(v)
    case Some(StringId(s)) => s
  }

  /** Java's narrowing of an int-valued expression to a 32-bit int. */
  function Wrap32(x: int): (r: Int)
    ensures (r - x) % 0x1_0000_0000 == 0
  {
    var m := x % 0x1_0000_0000;
    if m > INT_MAX then m - 0x1_0000_0000 else m
  }

  /** Bitwise exclusive or of two naturals, one bit at a time. */
  function Xor(a: nat, b: nat): nat
    decreases a + b
  {
    if a == 0 && b == 0 then 0
    else (if a % 2 == b % 2 then 0 else 1) + 2 * Xor(a / 2, b / 2)
  }

  /**
   * Long.hashCode: (int) (value ^ (value >>> 32)). Of the 64-bit pattern u
   * of the value, the cast keeps the low 32 bits of the exclusive or, that
   * is, the low half of u xor its high half.
   */
  function LongHash(v: Long): Int {
    var u := v % 0x1_0000_0000_0000_0000;
    var lo := u % 0x1_0000_0000;
    var hi := u / 0x1_0000_0000;
    Wrap32(Xor(lo, hi))
  }

  /** String.hashCode: h = 31 * h + c over the characters, in 32-bit arithmetic. */
  function StringHash(s: string): Int
    decreases |s|
  {
    if s == [] then 0 else Wrap32(31 * StringHash(s[..|s| - 1]) + s[|s| - 1] as int)
  }

  function IdHash(id: Id): Int {
    match id
    case LongId(v) => LongHash(v)
    case IntegerId(v) => v
    case ShortId(v) => v
    case StringId(s) => StringHash(s)
  }

  /** hashCode: 0 plus the id's hash, or plus 0 for a null id. */
  function HashCode(e: Entity): (h: Int)
    ensures e.id.None? ==> h == 0
    ensures e.id.Some? ==> h == IdHash(e.id.value)
  {
    var hash := 0;
    hash + (if e.id.Some? then IdHash(e.id.value) else 0)
  }

  /**
   * equals against a non-null entity: false when the class names differ
   * (compareTo of the names is not 0), false when one id is null and the
   * other is not or the ids differ, true otherwise.
   */
  function Equals(a: Entity, other: Entity): bool {
    if CompareStrings(other.className, a.className) != 0 then false
    else if (a.id.None? && other.id.Some?) || (a.id.Some? && other.id != Some(a.id.value)) then false
    else true
  }

  /** equals against any reference: a null argument dereferences null. */
  function EqualsObject(a: Entity, other: Option<Entity>): (r: Result<bool>)
    ensures other.None? ==> r == Err(NullPointer)
    ensures other.Some? ==> r == Ok(Equals(a, other.value))
  {
    match other
    case None => Err(NullPointer)
    case Some(o) => Ok(Equals(a, o))
  }

  /** getComparableString: the view string in lower case. */
  function ComparableString(e: Entity): string {
    Lower(e.viewString)
  }

  /** compareTo: the comparable strings compared by String.compareTo. */
  function CompareTo(a: Entity, b: Entity): int {
    CompareStrings(ComparableString(a), ComparableString(b))
  }

  /** The order Collections.sort uses: a comes no later than b. */
  predicate LessEq(a: Entity, b: Entity) {
    CompareTo(a, b) <= 0
  }

  /** Two entities are equal exactly when they have the same class name and the same (possibly null) id. */
  lemma EqualsIff(a: Entity, b: Entity)
    ensures Equals(a, b) <==> a.className == b.className && a.id == b.id
  {
    CompareZeroIff(b.className, a.className);
  }

  lemma EqualsDifferentClass(a: Entity, b: Entity)
    requires a.className != b.className
    ensures !Equals(a, b)
  {
    EqualsIff(a, b);
  }

  /** Within one class a null id equals only a null id, and non-null ids must be equal. */
  lemma EqualsSameClass(a: Entity, b: Entity)
    requires a.className == b.className
    ensures a.id.None? ==> (Equals(a, b) <==> b.id.None?)
    ensures a.id.Some? && b.id.Some? ==> (Equals(a, b) <==> a.id.value == b.id.value)
  {
    EqualsIff(a, b);
  }

  /** equals is an equivalence relation. */
  lemma EqualsIsEquivalence(a: Entity, b: Entity, c: Entity)
    ensures Equals(a, a)
    ensures Equals(a, b) ==> Equals(b, a)
    ensures Equals(a, b) && Equals(b, c) ==> Equals(a, c)
  {
    EqualsIff(a, a);
    EqualsIff(a, b);
    EqualsIff(b, a);
    EqualsIff(b, c);
    EqualsIff(a, c);
  }

  /** Equal entities have equal hash codes. */
  lemma EqualsHashConsistent(a: Entity, b: Entity)
    requires Equals(a, b)
    ensures HashCode(a) == HashCode(b)
  {
    EqualsIff(a, b);
  }

  /** A Long id between 0 and Integer.MAX_VALUE hashes to itself. */
  lemma SmallLongHash(v: Long)
    requires 0 <= v <= INT_MAX
    ensures LongHash(v) == v
  {
    assert v % 0x1_0000_0000_0000_0000 == v;
    assert v % 0x1_0000_0000 == v;
    assert v / 0x1_0000_0000 == 0;
    XorZero(v);
    assert Wrap32(v) == v;
  }

  lemma {:induction false} XorZero(a: nat)
    ensures Xor(a, 0) == a
    decreases a
  {
    if a != 0 {
      XorZero(a / 2);
    }
  }

  /** compareTo is antisymmetric: swapping the entities negates the result. */
  lemma CompareToAntisymmetric(a: Entity, b: Entity)
    ensures CompareTo(a, b) == -CompareTo(b, a)
  {
    CompareAntisymmetric(ComparableString(a), ComparableString(b));
  }

  /** compareTo is 0 exactly when the view strings agree up to letter case. */
  lemma CompareToZeroIff(a: Entity, b: Entity)
    ensures CompareTo(a, b) == 0 <==> Lower(a.viewString) == Lower(b.viewString)
  {
    CompareZeroIff(ComparableString(a), ComparableString(b));
  }

  /** Upper-casing an entity's view string does not move it in the order. */
  lemma CompareToIgnoresCase(a: Entity, b: Entity)
    ensures CompareTo(a.(viewString := Upper(a.viewString)), b) == CompareTo(a, b)
    ensures CompareTo(a, b.(viewString := Upper(b.viewString))) == CompareTo(a, b)
  {
    LowerOfUpper(a.viewString);
    LowerOfUpper(b.viewString);
  }

  /** The sort order is a total preorder. */
  lemma LessEqTotalPreorder(a: Entity, b: Entity, c: Entity)
    ensures LessEq(a, a)
    ensures LessEq(a, b) || LessEq(b, a)
    ensures LessEq(a, b) && LessEq(b, c) ==> LessEq(a, c)
  {
    CompareZeroIff(ComparableString(a), ComparableString(a));
    CompareTotal(ComparableString(a), ComparableString(b));
    if LessEq(a, b) && LessEq(b, c) {
      CompareTransitive(ComparableString(a), ComparableString(b), ComparableString(c));
    }
  }
}
