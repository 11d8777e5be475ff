/**
 * What both DAO generations (AbstractDao and the legacy AbstractDAO) share
 * word for word: the uniqueness check and the in-place sort. Also the
 * in-memory datasource the model puts behind their abstract read and write
 * hooks, and the PersistAction enumeration.
 */
module DaoCommon {
  import opened Wrappers
  import opened Entity

  /** The unique attributes getUniqueParams gives: attribute name to value. */
  type Params = map<string, string>

  /** The three kinds of datasource write. */
  datatype PersistAction = Insert | Update | Delete

  /** The cause an EJBException carries: none, or a throwable with its localized message. */
  datatype Cause = NoCause | Cause(message: Option<string>)

  /**
   * How a datasource write can fail: with an EJBException (its own localized
   * message and its cause), which the beans report as an error message, or
   * with any other exception, which they only log.
   */
  datatype DaoFault = EjbFault(message: Option<string>, cause: Cause) | OtherFault

  /** One write a DAO was asked to perform, and whether it took effect. */
  datatype Write = Write(action: PersistAction, entity: Entity, done: bool)

  /** selectOne / getOne on the in-memory datasource: the first row with the id. */
  function FirstWithId(rows: seq<Entity>, id: Id): (r: Option<Entity>)
    ensures r.Some? ==> r.value in rows && r.value.id == Some(id)
    ensures r.None? <==> forall x :: x in rows ==> x.id != Some(id)
  {
    if rows == [] then None
    else if rows[0].id == Some(id) then Some(rows[0])
    else FirstWithId(rows[1..], id)
  }

  /** selectAllByUniqueParams on the in-memory datasource: the rows, in order, whose unique attributes are p. */
  function Matching(rows: seq<Entity>, uniqueParams: Entity -> Option<Params>, p: Params): (r: seq<Entity>)
    ensures forall x :: x in r <==> x in rows && uniqueParams(x) == Some(p)
  {
    if rows == [] then []
    else (if uniqueParams(rows[0]) == Some(p) then [rows[0]] else []) + Matching(rows[1..], uniqueParams, p)
  }

  /**
   * The verdict isAnUniqueEntity reaches against the in-memory datasource:
   * no unique attributes means unique; otherwise an insert needs no row with
   * the same unique attributes, and an update needs every such row to equal
   * the entity itself.
   */
  predicate UniqueIn(rows: seq<Entity>, uniqueParams: Entity -> Option<Params>, e: Entity, isInsert: bool) {
    match uniqueParams(e)
    case None => true
    case Some(p) =>
      var matches := Matching(rows, uniqueParams, p);
      if isInsert then matches == [] else forall x :: x in matches ==> Equals(e, x)
  }

  /**
   * isAnUniqueEntity: `params` is getUniqueParams(entity) and `select` the
   * selectAllByUniqueParams hook, whose None stands for a null list. The
   * loop returns false at the first match, unless the operation is an
   * update and the match equals the entity.
   */
  method IsAnUniqueEntity(
    entity: Entity, isInsert: bool,
    params: Option<Params>, select: Params -> Option<seq<Entity>>)
    returns (unique: bool)
    ensures params.None? ==> unique
    ensures params.Some? && select(params.value).None? ==> unique
    ensures params.Some? && select(params.value).Some? && isInsert ==>
      (unique <==> select(params.value).value == [])
    ensures params.Some? && select(params.value).Some? && !isInsert ==>
      (unique <==> forall x :: x in select(params.value).value ==> Equals(entity, x))
  {
    if params.Some? {
      var uniqueItems := select(params.value);
      if uniqueItems.Some? {
        var items := uniqueItems.value;
        var i := 0;
        while i < |items|
          invariant 0 <= i <= |items|
          invariant isInsert ==> i == 0
          invariant forall j :: 0 <= j < i ==> Equals(entity, items[j])
        {
          if isInsert || !Equals(entity, items[i]) {
            return false;
          }
          i := i + 1;
        }
      }
    }
    return true;
  }

  /** An update on the in-memory datasource: every row equal to e is replaced by e. */
  function Replaced(rows: seq<Entity>, e: Entity): (r: seq<Entity>)
    ensures |r| == |rows|
    ensures forall i :: 0 <= i < |rows| ==> r[i] == if Equals(rows[i], e) then e else rows[i]
  {
    if rows == [] then []
    else [if Equals(rows[0], e) then e else rows[0]] + Replaced(rows[1..], e)
  }

  /** A delete on the in-memory datasource: every row equal to e is dropped. */
  function Removed(rows: seq<Entity>, e: Entity): (r: seq<Entity>)
    ensures forall x :: x in r <==> x in rows && !Equals(x, e)
    ensures |r| <= |rows|
  {
    if rows == [] then []
    else (if Equals(rows[0], e) then [] else [rows[0]]) + Removed(rows[1..], e)
  }

  /** The datasource after a write that takes effect. */
  function Applied(rows: seq<Entity>, action: PersistAction, e: Entity): seq<Entity> {
    match action
    case Insert => rows + [e]
    case Update => Replaced(rows, e)
    case Delete => Removed(rows, e)
  }

  predicate Sorted(s: seq<Entity>) {
    forall i, j :: 0 <= i < j < |s| ==> LessEq(s[i], s[j])
  }

  /**
   * sort: Collections.sort on the list, which is then returned. The list is
   * reordered in place, ascending by compareTo.
   */
  method Sort(a: array<Entity>) returns (r: array<Entity>)
    modifies a
    ensures r == a
    ensures Sorted(a[..])
    ensures multiset(a[..]) == multiset(old(a[..]))
  {
    var i := 0;
    while i < a.Length
      invariant 0 <= i <= a.Length
      invariant Sorted(a[..i])
      invariant multiset(a[..]) == multiset(old(a[..]))
    {
      InsertLast(a, i);
      i := i + 1;
    }
    assert a[..] == a[..i];
    r := a;
  }

  /** Moves a[i] left past every larger element, so that a[..i + 1] becomes sorted. */
  method InsertLast(a: array<Entity>, i: nat)
    requires i < a.Length
    requires Sorted(a[..i])
    modifies a
    ensures Sorted(a[..i + 1])
    ensures multiset(a[..]) == multiset(old(a[..]))
    ensures a[i + 1..] == old(a[i + 1..])
  {
    var j := i;
    while j > 0 && !LessEq(a[j - 1], a[j])
      invariant 0 <= j <= i
      invariant forall p, q :: 0 <= p < q <= i && p != j && q != j ==> LessEq(a[p], a[q])
      invariant forall q :: j < q <= i ==> LessEq(a[j], a[q])
      invariant multiset(a[..]) == multiset(old(a[..]))
      invariant a[i + 1..] == old(a[i + 1..])
    {
      LessEqTotalPreorder(a[j], a[j - 1], a[j]);
      a[j - 1], a[j] := a[j], a[j - 1];
      j := j - 1;
    }
    forall p, q | 0 <= p < q <= i
      ensures LessEq(a[p], a[q])
    {
      if q == j && p < j - 1 {
        LessEqTotalPreorder(a[p], a[j - 1], a[j]);
      }
    }
  }
}
