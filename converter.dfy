/**
 * AbstractJsfConverter: turns the id text a JSF component submits into the
 * entity the DAO holds, and an entity back into its id text.
 */
module Converter {
  import opened Wrappers
  import opened JavaText
  import opened JavaNumbers
  import opened Entity
  import Dao

  /** The range of the boxed type a numeric id kind parses into. */
  function KindMin(kind: IdKind): int {
    match kind
    case LongKind => LONG_MIN
    case IntegerKind => INT_MIN
    case ShortKind => SHORT_MIN
    case StringKind => 0
  }

  function KindMax(kind: IdKind): int {
    match kind
    case LongKind => LONG_MAX
    case IntegerKind => INT_MAX
    case ShortKind => SHORT_MAX
    case StringKind => 0
  }

  /** The numeric value of a Long, Integer or Short id. */
  function IdNumber(id: Id): int {
    match id
    case LongId(v) => v
    case IntegerId(v) => v
    case ShortId(v) => v
    case StringId(_) => 0
  }

  /**
   * getIdFromString: parseLong, parseInt or parseShort by the id class, the
   * raw text for a String id class; a NumberFormatException is None.
   */
  function GetIdFromString(kind: IdKind, idString: string): (r: Option<Id>)
    ensures r.Some? ==> HasKind(r.value, kind)
    ensures kind == StringKind ==> r == Some(StringId(idString))
    ensures kind != StringKind ==>
      (r.Some? <==> WellFormed(idString) && KindMin(kind) <= SignedValue(idString) <= KindMax(kind))
    ensures kind != StringKind && r.Some? ==> IdNumber(r.value) == SignedValue(idString)
  {
    match kind
    case LongKind =>
      (match ParseLong(idString) case Some(v) => Some(LongId(v)) case None => None)
    case IntegerKind =>
      (match ParseInt(idString) case Some(v) => Some(IntegerId(v)) case None => None)
    case ShortKind =>
      (match ParseShort(idString) case Some(v) => Some(ShortId(v)) case None => None)
    case StringKind => Some(StringId(idString))
  }

  /**
   * getAsObject: None for a null, empty or unparseable value, with no
   * lookup; otherwise dao.selectOne of the parsed id.
   */
  function GetAsObject(dao: Dao.EntityDao, kind: IdKind, value: Option<string>): (r: Option<Entity>)
    reads dao
    ensures value.None? || value.value == "" || GetIdFromString(kind, value.value).None? ==> r.None?
    ensures r.Some? ==> r.value in dao.rows && r.value.id == GetIdFromString(kind, value.value)
    ensures value.Some? && value.value != "" && GetIdFromString(kind, value.value).Some? ==>
      (r.None? <==> forall x :: x in dao.rows ==> x.id != GetIdFromString(kind, value.value))
  {
    if value.None? || |value.value| == 0 || GetIdFromString(kind, value.value).None? then None
    else dao.SelectOne(GetIdFromString(kind, value.value).value)
  }

  /**
   * getAsString: None for a null object and for an object whose class name
   * differs from the converter's entity class (that case is only logged);
   * otherwise the id appended to a StringBuilder, "null" for a null id.
   */
  function GetAsString(entityClassName: string, obj: Option<Entity>): (r: Option<string>)
    ensures r.Some? <==> obj.Some? && obj.value.className == entityClassName
    ensures r.Some? ==> r.value == IdText(obj.value.id)
  {
    if obj.None? then None
    else if CompareStrings(obj.value.className, entityClassName) == 0 then
      CompareZeroIff(obj.value.className, entityClassName);
      Some(IdText(obj.value.id))
    else
      CompareZeroIff(obj.value.className, entityClassName);
      None
  }

  /** The id text of an id of the converter's kind parses back to that id. */
  lemma IdTextRoundTrip(kind: IdKind, id: Id)
    requires HasKind(id, kind)
    ensures GetIdFromString(kind, IdText(Some(id))) == Some(id)
  {
    match id
    case LongId(v) => ParseToDecimal(v, LONG_MIN, LONG_MAX);
    case IntegerId(v) => ParseToDecimal(v, INT_MIN, INT_MAX);
    case ShortId(v) => ParseToDecimal(v, SHORT_MIN, SHORT_MAX);
    case StringId(_) =>
  }

  /**
   * getAsString followed by getIdFromString gives back the entity's id, for
   * an entity of the converter's class with a non-null id of its kind.
   */
  lemma AsStringIdRoundTrip(entityClassName: string, kind: IdKind, e: Entity)
    requires e.className == entityClassName && e.id.Some? && HasKind(e.id.value, kind)
    ensures GetAsString(entityClassName, Some(e)).Some?
    ensures GetIdFromString(kind, GetAsString(entityClassName, Some(e)).value) == e.id
  {
    IdTextRoundTrip(kind, e.id.value);
  }

  /**
   * The full round trip through the DAO: an entity the DAO holds, alone
   * with its id, comes back from getAsObject(getAsString(e)). A String id
   * must not be empty, since getAsObject turns "" away.
   */
  lemma ConverterRoundTrip(dao: Dao.EntityDao, entityClassName: string, kind: IdKind, e: Entity)
    requires e in dao.rows && e.className == entityClassName
    requires e.id.Some? && HasKind(e.id.value, kind) && e.id.value != StringId("")
    requires forall x :: x in dao.rows && x.id == e.id ==> x == e
    ensures GetAsObject(dao, kind, GetAsString(entityClassName, Some(e))) == Some(e)
  {
    var text := IdText(e.id);
    IdTextRoundTrip(kind, e.id.value);
    if kind != StringKind {
      ToDecimalShape(IdNumber(e.id.value));
    }
    assert text != "";
  }

  /**
   * An entity with a null id is written as "null", which a numeric
   * converter cannot read back: getAsObject gives None.
   */
  lemma NullIdIsLostForNumericIds(dao: Dao.EntityDao, entityClassName: string, kind: IdKind, e: Entity)
    requires e.className == entityClassName && e.id.None? && kind != StringKind
    ensures GetAsString(entityClassName, Some(e)) == Some("null")
    ensures GetAsObject(dao, kind, GetAsString(entityClassName, Some(e))) == None
  {
    RejectsWithoutDigits("null", KindMin(kind), KindMax(kind));
  }
}
