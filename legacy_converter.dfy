/**
 * AbstractJSFConverter: the legacy converter generation, which looks
 * entities up through an AbstractDAO. Its id parsing and its entity-to-text
 * direction are those of Converter.
 */
module LegacyConverter {
  import opened Wrappers
  import opened Entity
  import ModelDao
  import Converter
  import JavaNumbers

  /**
   * getAsObject: None for a null, empty or unparseable value, with no
   * lookup; otherwise the DAO's lookup of the parsed id (getOne).
   */
  function GetAsObject(dao: ModelDao.CachingDao, kind: IdKind, value: Option<string>): (r: Option<Entity>)
    reads dao
    ensures value.None? || value.value == "" || Converter.GetIdFromString(kind, value.value).None? ==> r.None?
    ensures r.Some? ==> r.value in dao.rows && r.value.id == Converter.GetIdFromString(kind, value.value)
    ensures value.Some? && value.value != "" && Converter.GetIdFromString(kind, value.value).Some? ==>
      (r.None? <==> forall x :: x in dao.rows ==> x.id != Converter.GetIdFromString(kind, value.value))
  {
    if value.None? || |value.value| == 0 || Converter.GetIdFromString(kind, value.value).None? then None
    else dao.GetOne(Converter.GetIdFromString(kind, value.value).value)
  }

  /** The legacy round trip: an entity alone with its id comes back from getAsObject(getAsString(e)). */
  lemma LegacyConverterRoundTrip(dao: ModelDao.CachingDao, entityClassName: string, kind: IdKind, e: Entity)
    requires e in dao.rows && e.className == entityClassName
    requires e.id.Some? && HasKind(e.id.value, kind) && e.id.value != StringId("")
    requires forall x :: x in dao.rows && x.id == e.id ==> x == e
    ensures GetAsObject(dao, kind, Converter.GetAsString(entityClassName, Some(e))) == Some(e)
  {
    Converter.IdTextRoundTrip(kind, e.id.value);
    if kind != StringKind {
      JavaNumbers.ToDecimalShape(Converter.IdNumber(e.id.value));
    }
    assert IdText(e.id) != "";
  }
}
