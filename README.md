# webapptemplate CRUD core, modelled in Dafny

webapptemplate is a Java EE template for CRUD web applications. This project
models the logic under its JSF, CDI, JPA and reflection glue:

- **The CRUD managed beans** of the three generations: `AbstractJsfCrudMb`,
  `AbstractJSFCRUDMB` and `AbstractController`. Each is a class holding
  `selected`, the cached `all` and a message log. Each action is a method:
  - it checks a permission gate;
  - it loads `selected` from the `id` request parameter;
  - it runs the uniqueness check;
  - it dispatches exactly one DAO write (INSERT, UPDATE or DELETE);
  - it appends a message and returns a redirect path.

  Every action method (getSelected, persist, create, createOnly, edit,
  editWithoutMessage, remove and the can* checks) is proved against a flow
  function of module `CrudFlow` (`Snapshot() == Flow(old(Snapshot()), ...)`),
  and the lemmas of `CrudFlow` state what the flows promise. The list
  accessors (getAll, getNewSelected) and the controller's date accessors
  state their new fields directly.
- **The DAO rules** of `AbstractDao` and the legacy `AbstractDAO`:
  - `isAnUniqueEntity`, a loop proved against `UniqueIn`;
  - the cached `getAll(refresh)`;
  - the count, which `List.size()` caps at `Integer.MAX_VALUE`;
  - `sort`, an in-place insertion sort on an array, proved sorted and a
    permutation.

  Each DAO is a class over an in-memory datasource. `rows` is a sequence, so
  list order stays visible. `writes` logs every write the DAO was asked for,
  and whether it took effect.
- **`AbstractEntity`**:
  - `equals`, on the class name and the id;
  - `hashCode`, on the id, with Java's `Long.hashCode`/`String.hashCode` in
    32-bit arithmetic;
  - `compareTo`, which is `String.compareTo` on the lower-cased view strings.
- **The converters** `AbstractJsfConverter` and `AbstractJSFConverter`:
  - the id parsers follow Java's `parseLong`/`parseInt`/`parseShort` grammar
    and ranges, over ASCII digits;
  - `getAsObject` and `getAsString` are proved to round-trip.
- **`JsfUrlUtils`**: in the request-parameter readers, `""` and `"null"` mean
  absent.
- **`JsfServletUtils.isMobile`**: the upper-cased User-Agent is checked for
  the keywords.

A Java exception is modelled as `Err(NullPointer)` or `Err(NumberFormat)`
(`Wrappers.Result`). A null reference is `None`. A DAO write that fails is
given as a `DaoFault` parameter. The request parameter map and the
User-Agent header value are parameters.

Some behaviours the model keeps exactly as written:
- In `persist`, an `EJBException` whose cause has a null localized message
  makes `msg.length()` throw `NullPointerException` inside the catch block.
  See `CrudFlow.EjbReport`.
- `edit(null)` with no entity loaded dereferences the null `selected` when it
  builds the default path. See `CrudFlow.EditWithoutEntityThrows`.
- In the legacy bean and the controller, `getAll(true)` copies the DAO's
  cached `getAll()`. A refresh therefore rereads the datasource only when the
  DAO has no list yet.
- `AbstractController.remove` deletes the `selected` field as it stands and
  never loads it from the request. See `CrudFlow.UngatedRemoveNeedsSelection`.
- `AbstractJSFConverter.java:100` calls `dao.selectOne`, which `AbstractDAO`
  does not declare: it declares `getOne`. The model reads the call as
  `getOne`.

## Model

| member | source | states |
|---|---|---|
| `JavaText.CompareAntisymmetric` | src/org/nucleodevel/webapptemplate/entity/AbstractEntity.java:122-124 | String.compareTo is antisymmetric: swapping the operands negates the result |
| `JavaText.CompareZeroIff` | src/org/nucleodevel/webapptemplate/entity/AbstractEntity.java:96 | String.compareTo is 0 exactly when the strings are equal, which is what the class-name test relies on |
| `JavaText.CompareTransitive` | src/org/nucleodevel/webapptemplate/entity/AbstractEntity.java:122-124 | String.compareTo order is transitive |
| `JavaText.CompareTotal` | src/org/nucleodevel/webapptemplate/entity/AbstractEntity.java:122-124 | any two strings are comparable one way or the other |
| `JavaText.UpperOfLower` | src/org/nucleodevel/webapptemplate/util/JsfServletUtils.java:55-58 | upper-casing a lower-cased string is the same as upper-casing the original |
| `JavaText.ContainsExtended` | src/org/nucleodevel/webapptemplate/util/JsfServletUtils.java:58 | String.contains survives adding any prefix and suffix to the haystack |
| `JavaNumbers.ParseDecimal` | src/org/nucleodevel/webapptemplate/named/converter/jsf/AbstractJsfConverter.java:137-147 | the parseLong/parseInt/parseShort grammar restricted to ASCII digits: succeeds exactly on an optional sign and one or more digits whose value lies in the type's range, and then gives that value |
| `JavaNumbers.DigitsRoundTrip` | src/org/nucleodevel/webapptemplate/named/converter/jsf/AbstractJsfConverter.java:137-142 | the decimal digits of a natural read back as that natural |
| `JavaNumbers.ParseToDecimal` | src/org/nucleodevel/webapptemplate/named/converter/jsf/AbstractJsfConverter.java:137-142 | Long.toString of a value in range parses back to the value |
| `JavaNumbers.ToDecimalShape` | src/org/nucleodevel/webapptemplate/util/JsfUrlUtils.java:39-41 | a number's decimal text is well formed and is neither "" nor "null" |
| `JavaNumbers.RejectsWithoutDigits` | src/org/nucleodevel/webapptemplate/named/converter/jsf/AbstractJsfConverter.java:145-147 | text with no digit (such as "null") always throws NumberFormatException |
| `Entity.HashCode` | src/org/nucleodevel/webapptemplate/entity/AbstractEntity.java:83-87 | hashCode is 0 for a null id and the id's own hash otherwise |
| `Entity.EqualsObject` | src/org/nucleodevel/webapptemplate/entity/AbstractEntity.java:93-96 | equals(null) throws NullPointerException; otherwise it is the entity comparison |
| `Entity.EqualsIff` | src/org/nucleodevel/webapptemplate/entity/AbstractEntity.java:93-108 | two entities are equal exactly when their class names are the same and their (possibly null) ids are the same |
| `Entity.EqualsDifferentClass` | src/org/nucleodevel/webapptemplate/entity/AbstractEntity.java:94-97 | entities of different runtime classes are never equal |
| `Entity.EqualsSameClass` | src/org/nucleodevel/webapptemplate/entity/AbstractEntity.java:101-107 | within one class a null id equals only a null id, and non-null ids are equal exactly when they are equal |
| `Entity.EqualsIsEquivalence` | src/org/nucleodevel/webapptemplate/entity/AbstractEntity.java:93-108 | equals is reflexive, symmetric and transitive |
| `Entity.EqualsHashConsistent` | src/org/nucleodevel/webapptemplate/entity/AbstractEntity.java:83-108 | equal entities have equal hash codes |
| `Entity.SmallLongHash` | src/org/nucleodevel/webapptemplate/entity/AbstractEntity.java:85 | a Long id between 0 and Integer.MAX_VALUE hashes to itself under Long.hashCode |
| `Entity.CompareToAntisymmetric` | src/org/nucleodevel/webapptemplate/entity/AbstractEntity.java:122-124 | compareTo is antisymmetric in sign (a.compareTo(b) == -b.compareTo(a)) |
| `Entity.CompareToZeroIff` | src/org/nucleodevel/webapptemplate/entity/AbstractEntity.java:140-142 | compareTo is 0 exactly when the view strings agree up to letter case |
| `Entity.CompareToIgnoresCase` | src/org/nucleodevel/webapptemplate/entity/AbstractEntity.java:140-142 | changing the letter case of a view string does not move the entity in the order |
| `Entity.LessEqTotalPreorder` | src/org/nucleodevel/webapptemplate/entity/AbstractEntity.java:122-124 | the order compareTo induces is reflexive, total and transitive, as Collections.sort needs |
| `DaoCommon.FirstWithId` | src/org/nucleodevel/webapptemplate/dao/AbstractDao.java:168 | a lookup by id returns a stored entity with that id, and returns null only when no stored entity has it |
| `DaoCommon.Matching` | src/org/nucleodevel/webapptemplate/dao/AbstractDao.java:143 | the rows matching unique parameters are exactly the stored rows whose unique attributes are those parameters |
| `DaoCommon.Replaced` | src/org/nucleodevel/webapptemplate/dao/AbstractDao.java:194 | an update replaces every stored row equal to the entity by the entity and keeps the rest in place |
| `DaoCommon.Removed` | src/org/nucleodevel/webapptemplate/dao/AbstractDao.java:203 | a delete keeps exactly the stored rows not equal to the entity |
| `DaoCommon.IsAnUniqueEntity` | src/org/nucleodevel/webapptemplate/dao/AbstractDao.java:100-110 | true for null unique params or a null match list; for an insert, true exactly when there is no match; for an update, true exactly when every match equals the entity |
| `DaoCommon.Sort` | src/org/nucleodevel/webapptemplate/dao/AbstractDao.java:219-222 | Collections.sort: afterwards the same array is ascending by compareTo and holds the same multiset of entities |
| `Dao.EntityDao.SelectOne` | src/org/nucleodevel/webapptemplate/dao/AbstractDao.java:168 | selectOne(id) gives a stored entity with that id, or null exactly when none has it |
| `Dao.EntityDao.SelectAllByUniqueParams` | src/org/nucleodevel/webapptemplate/dao/AbstractDao.java:143 | the stored entities whose unique attributes are the parameters |
| `Dao.EntityDao.SelectCount` | src/org/nucleodevel/webapptemplate/dao/AbstractDao.java:158-160 | selectCount is the length of selectAll(), capped at Integer.MAX_VALUE by List.size() |
| `Dao.EntityDao.IsAnUniqueEntity` | src/org/nucleodevel/webapptemplate/dao/AbstractDao.java:100-110 | the uniqueness verdict against the current datasource, with getUniqueParams called on the entity |
| `Dao.EntityDao.Insert` | src/org/nucleodevel/webapptemplate/dao/AbstractDao.java:185 | the write is logged; when it succeeds the entity is appended to the datasource, and when it fails the datasource is unchanged |
| `Dao.EntityDao.Update` | src/org/nucleodevel/webapptemplate/dao/AbstractDao.java:194 | the write is logged; when it succeeds the equal rows are replaced, and when it fails the datasource is unchanged |
| `Dao.EntityDao.Delete` | src/org/nucleodevel/webapptemplate/dao/AbstractDao.java:203 | the write is logged; when it succeeds the equal rows are dropped, and when it fails the datasource is unchanged |
| `Dao.EntityDao.Sort` | src/org/nucleodevel/webapptemplate/dao/AbstractDao.java:219-222 | returns the same list, sorted ascending in place, as a permutation of the input |
| `ModelDao.CachingDao.GetOne` | src/org/nucleodevel/webapptemplate/model/dao/AbstractDAO.java:181 | getOne(id) gives a stored entity with that id, or null exactly when none has it |
| `ModelDao.CachingDao.GetAllByUniqueParams` | src/org/nucleodevel/webapptemplate/model/dao/AbstractDAO.java:150 | the stored entities whose unique attributes are the parameters |
| `ModelDao.CachingDao.GetAll` | src/org/nucleodevel/webapptemplate/model/dao/AbstractDAO.java:126-130 | getAll(refresh) rereads getAllNow only when the cache is null or refresh is true, and otherwise returns the cached list unchanged |
| `ModelDao.CachingDao.GetAllCached` | src/org/nucleodevel/webapptemplate/model/dao/AbstractDAO.java:114-116 | getAll() is getAll(false): a cached list is never reread |
| `ModelDao.CachingDao.GetCount` | src/org/nucleodevel/webapptemplate/model/dao/AbstractDAO.java:169-171 | getCount is the size of the cached list (capped by List.size()), which stays fixed until the next refresh |
| `ModelDao.CachingDao.IsAnUniqueEntity` | src/org/nucleodevel/webapptemplate/model/dao/AbstractDAO.java:196-206 | the uniqueness verdict of the legacy DAO against the current datasource |
| `ModelDao.CachingDao.Insert` | src/org/nucleodevel/webapptemplate/model/dao/AbstractDAO.java:232 | as for AbstractDao; the cached list is not touched |
| `ModelDao.CachingDao.Update` | src/org/nucleodevel/webapptemplate/model/dao/AbstractDAO.java:240 | as for AbstractDao; the cached list is not touched |
| `ModelDao.CachingDao.Delete` | src/org/nucleodevel/webapptemplate/model/dao/AbstractDAO.java:248 | as for AbstractDao; the cached list is not touched |
| `ModelDao.CachingDao.Sort` | src/org/nucleodevel/webapptemplate/model/dao/AbstractDAO.java:265-268 | returns the same list, sorted ascending in place, as a permutation of the input |
| `UrlParams.GetUrlStringParam` | src/org/nucleodevel/webapptemplate/util/JsfUrlUtils.java:34-42 | null exactly when the parameter is absent ("" + null is "null"), empty, or the text "null"; otherwise the value unchanged |
| `UrlParams.GetUrlLongParam` | src/org/nucleodevel/webapptemplate/util/JsfUrlUtils.java:52-61 | the parsed Long for a well-formed in-range decimal; null otherwise, including for an absent parameter |
| `UrlParams.GetUrlDateParam` | src/org/nucleodevel/webapptemplate/util/JsfUrlUtils.java:71-82 | null whenever getUrlStringParam is null; otherwise whatever the date format makes of the value, null on a parse failure |
| `UrlParams.LongParamIsStringParam` | src/org/nucleodevel/webapptemplate/util/JsfUrlUtils.java:39-61 | a parameter getUrlLongParam reads is never one getUrlStringParam drops |
| `UrlParams.LongParamRoundTrip` | src/org/nucleodevel/webapptemplate/util/JsfUrlUtils.java:52-61 | a Long written as a parameter is read back as that Long |
| `UrlParams.StringParamRoundTrip` | src/org/nucleodevel/webapptemplate/util/JsfUrlUtils.java:39-41 | a written value reads back unchanged unless it is "" or "null" |
| `UserAgent.IsMobile` | src/org/nucleodevel/webapptemplate/util/JsfServletUtils.java:53-62 | true exactly when the upper-cased User-Agent contains one of ANDROID, IPHONE, IPOD, SYMBIAN, false otherwise, and NullPointerException for a missing header |
| `UserAgent.MobileAgentIgnoresCase` | src/org/nucleodevel/webapptemplate/util/JsfServletUtils.java:55-58 | changing the letter case of the User-Agent does not change the answer |
| `UserAgent.MobileAgentExtended` | src/org/nucleodevel/webapptemplate/util/JsfServletUtils.java:57-59 | a mobile User-Agent stays mobile with any prefix or suffix |
| `UserAgent.KeywordIsMobile` | src/org/nucleodevel/webapptemplate/util/JsfServletUtils.java:34 | each keyword of the mobiles array, in either case, is a mobile User-Agent |
| `UserAgent.ShortAgentIsNotMobile` | src/org/nucleodevel/webapptemplate/util/JsfServletUtils.java:57-61 | a User-Agent shorter than the shortest keyword contains none and yields false |
| `Converter.GetIdFromString` | src/org/nucleodevel/webapptemplate/named/converter/jsf/AbstractJsfConverter.java:132-148 | Long, Integer or Short id classes give the parsed value of that type, or null when the text is not numeric or out of range; a String id class gives the text unchanged |
| `Converter.GetAsObject` | src/org/nucleodevel/webapptemplate/named/converter/jsf/AbstractJsfConverter.java:92-96 | null with no lookup for a null, empty or unparseable value; otherwise the stored entity with the parsed id, or null when there is none |
| `Converter.GetAsString` | src/org/nucleodevel/webapptemplate/named/converter/jsf/AbstractJsfConverter.java:105-124 | null for a null object or one of another class; otherwise the id's string form ("null" for a null id) |
| `Converter.IdTextRoundTrip` | src/org/nucleodevel/webapptemplate/named/converter/jsf/AbstractJsfConverter.java:132-148 | the string form of an id of the entity's id class parses back to that id |
| `Converter.AsStringIdRoundTrip` | src/org/nucleodevel/webapptemplate/named/converter/jsf/AbstractJsfConverter.java:105-148 | getIdFromString(getAsString(e)) is e's id for an entity of the converter's class with a non-null id |
| `Converter.ConverterRoundTrip` | src/org/nucleodevel/webapptemplate/named/converter/jsf/AbstractJsfConverter.java:92-124 | getAsObject(getAsString(e)) is e for a stored entity alone with its non-null (and, for String ids, non-empty) id |
| `Converter.NullIdIsLostForNumericIds` | src/org/nucleodevel/webapptemplate/named/converter/jsf/AbstractJsfConverter.java:105-147 | an entity with a null id is written as "null", which a numeric converter cannot read back |
| `LegacyConverter.GetAsObject` | src/org/nucleodevel/webapptemplate/named/converter/jsf/AbstractJSFConverter.java:97-101 | as for the new converter, over the legacy DAO's lookup; getIdFromString and getAsString of this file are those of `Converter` |
| `LegacyConverter.LegacyConverterRoundTrip` | src/org/nucleodevel/webapptemplate/named/converter/jsf/AbstractJSFConverter.java:97-155 | the legacy getAsObject(getAsString(e)) is e for a stored entity alone with its id |
| `CrudFlow.LoadSelected` | src/org/nucleodevel/webapptemplate/named/mb/jsf/AbstractJsfCrudMb.java:127-146 | getSelected never replaces a non-null selected; with no id parameter selected stays null; otherwise the id is parsed by the id class (NumberFormatException on failure) and looked up, so a loaded entity is a stored one with that id |
| `CrudFlow.EjbReport` | src/org/nucleodevel/webapptemplate/named/mb/jsf/AbstractJsfCrudMb.java:431-441 | an EJBException is reported as an error: the cause's message when non-empty, else the exception's message or persistence.error.generic; a cause with a null message throws NullPointerException |
| `CrudFlow.Persist` | src/org/nucleodevel/webapptemplate/named/mb/jsf/AbstractJsfCrudMb.java:420-446 | nothing at all when selected is null; otherwise exactly one write of the selected entity with the given action, taking effect only without a fault, then the success message only when its key is non-null, or only error messages after a fault |
| `CrudFlow.CreateFlow` | src/org/nucleodevel/webapptemplate/named/mb/jsf/AbstractJsfCrudMb.java:231-249 | create refused by canCreate appends can.error.generic and returns "" with no write; in every case at most one message and at most one INSERT are added and the datasource changes only by that insert |
| `CrudFlow.CreateOnlyFlow` | src/org/nucleodevel/webapptemplate/named/mb/jsf/AbstractJsfCrudMb.java:270-287 | createOnly adds at most one INSERT and never a success message |
| `CrudFlow.EditFlow` | src/org/nucleodevel/webapptemplate/named/mb/jsf/AbstractJsfCrudMb.java:298-360 | edit adds at most one UPDATE and one message; editWithoutMessage never adds a success message |
| `CrudFlow.Removal` | src/org/nucleodevel/webapptemplate/named/mb/jsf/AbstractJsfCrudMb.java:394-396 | the DELETE persist of remove, after which selected is null and the path is nextPath or /index.jsf?faces-redirect=true |
| `CrudFlow.RemoveFlow` | src/org/nucleodevel/webapptemplate/named/mb/jsf/AbstractJsfCrudMb.java:384-397 | remove adds at most one DELETE and one message, and changes the datasource only by that delete |
| `CrudFlow.LoadSelectedIdempotent` | src/org/nucleodevel/webapptemplate/named/mb/jsf/AbstractJsfCrudMb.java:127-146 | a second getSelected changes nothing, so the repeated getSelected() calls of edit act once |
| `CrudFlow.ViewLinkLoadsEntity` | src/org/nucleodevel/webapptemplate/named/mb/jsf/AbstractJsfCrudMb.java:315-316 | the id text the view path carries, read back by getSelected, loads exactly the entity it was written for |
| `CrudFlow.CreateInsertsUnique` | src/org/nucleodevel/webapptemplate/named/mb/jsf/AbstractJsfCrudMb.java:237-248 | create on a unique entity performs exactly one INSERT, records lcFirst(name) + ".persistence.created" and returns nextPath or create.jsf?faces-redirect=true |
| `CrudFlow.CreateRejectsDuplicate` | src/org/nucleodevel/webapptemplate/named/mb/jsf/AbstractJsfCrudMb.java:241-246 | create on an entity whose unique attributes a stored row shares writes nothing, records the unique error and returns nextPath or index.jsf?faces-redirect=true |
| `CrudFlow.EditRejectsDuplicate` | src/org/nucleodevel/webapptemplate/named/mb/jsf/AbstractJsfCrudMb.java:308-313 | edit and editWithoutMessage on an entity whose unique attributes a different stored row shares write nothing, record the unique error and return nextPath or index.jsf?faces-redirect=true |
| `CrudFlow.CreateOnlyMirrorsCreate` | src/org/nucleodevel/webapptemplate/named/mb/jsf/AbstractJsfCrudMb.java:270-287 | createOnly does to the datasource, the writes and selected what create does, without the success message |
| `CrudFlow.EditWithoutMessageMirrorsEdit` | src/org/nucleodevel/webapptemplate/named/mb/jsf/AbstractJsfCrudMb.java:341-360 | editWithoutMessage returns and writes what edit does; only edit records a success message |
| `CrudFlow.EditReturnsViewPath` | src/org/nucleodevel/webapptemplate/named/mb/jsf/AbstractJsfCrudMb.java:298-317 | edit with no path, on an entity passing the update check, writes one UPDATE, keeps the entity stored and returns view.jsf?faces-redirect=true&id= plus its id |
| `CrudFlow.UpdateCheckAcceptsItself` | src/org/nucleodevel/webapptemplate/dao/AbstractDao.java:105-107 | the update check accepts an entity whose only matches equal it |
| `CrudFlow.EditWithoutEntityThrows` | src/org/nucleodevel/webapptemplate/named/mb/jsf/AbstractJsfCrudMb.java:315-316 | edit with no path and nothing loaded writes nothing and throws NullPointerException |
| `CrudFlow.RemoveClearsSelected` | src/org/nucleodevel/webapptemplate/named/mb/jsf/AbstractJsfCrudMb.java:384-397 | an allowed remove that returns leaves selected null and returns nextPath or /index.jsf?faces-redirect=true |
| `CrudFlow.RemoveIgnoresUniqueness` | src/org/nucleodevel/webapptemplate/named/mb/jsf/AbstractJsfCrudMb.java:384-397 | remove runs no uniqueness check: its outcome does not depend on getUniqueParams |
| `CrudFlow.UngatedRemoveNeedsSelection` | src/org/nucleodevel/webapptemplate/controller/AbstractController.java:431-439 | the controller's remove with nothing selected writes nothing, even when the request names an id |
| `CrudFlow.DeniedGatesNeverWrite` | src/org/nucleodevel/webapptemplate/named/mb/jsf/AbstractJSFCRUDMB.java:293-391 | edit and remove refused by canEdit/canRemove return "", append can.error.generic and write nothing |
| `CrudMb.JsfCrudMb.GetSelected` | src/org/nucleodevel/webapptemplate/named/mb/jsf/AbstractJsfCrudMb.java:127-146 | getSelected as specified by LoadSelected, looking up with selectOne |
| `CrudMb.JsfCrudMb.GetNewSelected` | src/org/nucleodevel/webapptemplate/named/mb/jsf/AbstractJsfCrudMb.java:165-169 | an existing selected is kept; a null one is replaced by a fresh entity |
| `CrudMb.JsfCrudMb.GetAll` | src/org/nucleodevel/webapptemplate/named/mb/jsf/AbstractJsfCrudMb.java:201-208 | null with the cache untouched when canViewAll() is false; otherwise selectAll is reread only when the cache is null or refresh is true |
| `CrudMb.JsfCrudMb.GetAllCached` | src/org/nucleodevel/webapptemplate/named/mb/jsf/AbstractJsfCrudMb.java:189-191 | getAll() is getAll(false): a second call returns the cached list unchanged |
| `CrudMb.JsfCrudMb.Persist` | src/org/nucleodevel/webapptemplate/named/mb/jsf/AbstractJsfCrudMb.java:420-446 | persist as specified by CrudFlow.Persist, dispatching to the DAO's insert, update or delete |
| `CrudMb.JsfCrudMb.Create` | src/org/nucleodevel/webapptemplate/named/mb/jsf/AbstractJsfCrudMb.java:231-261 | create(nextPath) and create() (nextPath None) as specified by CreateFlow, gated by canCreate |
| `CrudMb.JsfCrudMb.CreateOnly` | src/org/nucleodevel/webapptemplate/named/mb/jsf/AbstractJsfCrudMb.java:270-287 | createOnly as specified by CreateOnlyFlow |
| `CrudMb.JsfCrudMb.Edit` | src/org/nucleodevel/webapptemplate/named/mb/jsf/AbstractJsfCrudMb.java:298-329 | edit(nextPath) and edit() as specified by EditFlow with the success message, gated by canEdit(getSelected()) |
| `CrudMb.JsfCrudMb.EditWithoutMessage` | src/org/nucleodevel/webapptemplate/named/mb/jsf/AbstractJsfCrudMb.java:341-373 | editWithoutMessage as specified by EditFlow without the success message |
| `CrudMb.JsfCrudMb.Remove` | src/org/nucleodevel/webapptemplate/named/mb/jsf/AbstractJsfCrudMb.java:384-409 | remove(nextPath) and remove() as specified by RemoveFlow, gated by canRemove(getSelected()) |
| `CrudMb.JsfCrudMb.CanView` | src/org/nucleodevel/webapptemplate/named/mb/jsf/AbstractJsfCrudMb.java:508-510 | canView() loads selected by getSelected and asks canView about it |
| `CrudMb.JsfCrudMb.CanEdit` | src/org/nucleodevel/webapptemplate/named/mb/jsf/AbstractJsfCrudMb.java:519-521 | canEdit() loads selected by getSelected and asks canEdit about it |
| `CrudMb.JsfCrudMb.CanRemove` | src/org/nucleodevel/webapptemplate/named/mb/jsf/AbstractJsfCrudMb.java:530-532 | canRemove() loads selected by getSelected and asks canRemove about it |
| `LegacyCrudMb.JsfCrudMb.GetSelected` | src/org/nucleodevel/webapptemplate/named/mb/jsf/AbstractJSFCRUDMB.java:127-146 | getSelected as specified by LoadSelected, looking up with getOne |
| `LegacyCrudMb.JsfCrudMb.GetNewSelected` | src/org/nucleodevel/webapptemplate/named/mb/jsf/AbstractJSFCRUDMB.java:165-169 | an existing selected is kept; a null one is replaced by a fresh entity |
| `LegacyCrudMb.JsfCrudMb.GetAll` | src/org/nucleodevel/webapptemplate/named/mb/jsf/AbstractJSFCRUDMB.java:200-207 | null with both caches untouched when canAll() is false; otherwise the DAO's cached getAll() is copied only when the bean's cache is null or refresh is true |
| `LegacyCrudMb.JsfCrudMb.GetAllCached` | src/org/nucleodevel/webapptemplate/named/mb/jsf/AbstractJSFCRUDMB.java:188-190 | getAll() is getAll(false) |
| `LegacyCrudMb.JsfCrudMb.Persist` | src/org/nucleodevel/webapptemplate/named/mb/jsf/AbstractJSFCRUDMB.java:414-440 | persist as specified by CrudFlow.Persist on the legacy DAO |
| `LegacyCrudMb.JsfCrudMb.Create` | src/org/nucleodevel/webapptemplate/named/mb/jsf/AbstractJSFCRUDMB.java:226-256 | create as specified by CreateFlow, gated by canCreate |
| `LegacyCrudMb.JsfCrudMb.CreateOnly` | src/org/nucleodevel/webapptemplate/named/mb/jsf/AbstractJSFCRUDMB.java:265-282 | createOnly as specified by CreateOnlyFlow, gated by canCreate |
| `LegacyCrudMb.JsfCrudMb.Edit` | src/org/nucleodevel/webapptemplate/named/mb/jsf/AbstractJSFCRUDMB.java:293-324 | edit as specified by EditFlow with the success message, gated by canEdit(getSelected()) |
| `LegacyCrudMb.JsfCrudMb.EditWithoutMessage` | src/org/nucleodevel/webapptemplate/named/mb/jsf/AbstractJSFCRUDMB.java:336-367 | editWithoutMessage as specified by EditFlow without the success message |
| `LegacyCrudMb.JsfCrudMb.Remove` | src/org/nucleodevel/webapptemplate/named/mb/jsf/AbstractJSFCRUDMB.java:378-403 | remove as specified by RemoveFlow, gated by canRemove(getSelected()) |
| `LegacyCrudMb.JsfCrudMb.CanView` | src/org/nucleodevel/webapptemplate/named/mb/jsf/AbstractJSFCRUDMB.java:459-461 | canView() loads selected by getSelected and asks canView about it |
| `LegacyCrudMb.JsfCrudMb.CanEdit` | src/org/nucleodevel/webapptemplate/named/mb/jsf/AbstractJSFCRUDMB.java:463-465 | canEdit() loads selected by getSelected and asks canEdit about it |
| `LegacyCrudMb.JsfCrudMb.CanRemove` | src/org/nucleodevel/webapptemplate/named/mb/jsf/AbstractJSFCRUDMB.java:467-469 | canRemove() loads selected by getSelected and asks canRemove about it |
| `CrudController.Controller.GetSelected` | src/org/nucleodevel/webapptemplate/controller/AbstractController.java:173-192 | getSelected as specified by LoadSelected: never overwrites a non-null selected and looks up only when the id parameter is present |
| `CrudController.Controller.GetBegin` | src/org/nucleodevel/webapptemplate/controller/AbstractController.java:203-207 | the begin parameter is read only while begin is null; a set value is returned unchanged |
| `CrudController.Controller.SetBegin` | src/org/nucleodevel/webapptemplate/controller/AbstractController.java:209-211 | begin becomes the given date |
| `CrudController.Controller.GetEnd` | src/org/nucleodevel/webapptemplate/controller/AbstractController.java:218-222 | the end parameter is read only while end is null; a set value is returned unchanged |
| `CrudController.Controller.SetEnd` | src/org/nucleodevel/webapptemplate/controller/AbstractController.java:224-226 | end becomes the given date |
| `CrudController.Controller.GetNewSelected` | src/org/nucleodevel/webapptemplate/controller/AbstractController.java:241-245 | an existing selected is kept; a null one is replaced by a fresh entity |
| `CrudController.Controller.GetAll` | src/org/nucleodevel/webapptemplate/controller/AbstractController.java:276-280 | no permission gate; the DAO's cached getAll() is copied only when the cache is null or refresh is true |
| `CrudController.Controller.GetAllCached` | src/org/nucleodevel/webapptemplate/controller/AbstractController.java:264-266 | getAll() is getAll(false) |
| `CrudController.Controller.Persist` | src/org/nucleodevel/webapptemplate/controller/AbstractController.java:462-488 | persist as specified by CrudFlow.Persist: a success message only when the key is non-null |
| `CrudController.Controller.Create` | src/org/nucleodevel/webapptemplate/controller/AbstractController.java:299-324 | create as specified by CreateFlow with no permission check |
| `CrudController.Controller.CreateOnly` | src/org/nucleodevel/webapptemplate/controller/AbstractController.java:333-345 | createOnly as specified by CreateOnlyFlow, passing a null success key |
| `CrudController.Controller.Edit` | src/org/nucleodevel/webapptemplate/controller/AbstractController.java:356-382 | edit as specified by EditFlow with no permission check |
| `CrudController.Controller.EditWithoutMessage` | src/org/nucleodevel/webapptemplate/controller/AbstractController.java:394-420 | editWithoutMessage as specified by EditFlow, passing a null success key |
| `CrudController.Controller.Remove` | src/org/nucleodevel/webapptemplate/controller/AbstractController.java:431-451 | a DELETE persist of the selected field, then selected null, as specified by RemoveFlow without a gate |

## Left out

- Reflection is not modelled: `getEntityClass`, `getNewEntityInstance`, `getEntityIdClass` and `ParameterizedClassUtils`. Each bean is given E's simple name (for the message keys), E's id class and a fresh entity as constants. Each converter is given E's fully qualified name (`getName()`, which `getAsString` compares) and E's id class. A failing `getNewEntityInstance` returns null, and the NullPointerException that null would cause in `getSelected` is not modelled.
- The abstract DAO hooks are not modelled as such: `selectAll`, `selectOne`, `selectAllByUniqueParams`, `getAllNow`, `getOne`, `getAllByUniqueParams`, `insert`, `update` and `delete`. Their JPA and REST implementations are not modelled either. An in-memory datasource stands in for them:
  - insert appends the entity and assigns no id;
  - update replaces the equal rows;
  - delete drops the equal rows.
- `selectAllByRange` and `getAllByRange` are abstract hooks with no logic of their own, and are not modelled.
- `getUniqueParams(null)` is taken to return null, so a null `selected` counts as unique. The source leaves this to subclasses.
- Messages are kept as a bundle and a key. The `ResourceBundle` text lookup, the `FacesContext` message queue and the flash scope are not modelled.
- For an EJBException that is not otherwise reported, the exception's own localized message is used as the generic-bundle key.
- The logging of exceptions other than EJBException is not modelled: they leave the state as the failed write left it.
- The permission hooks (`canViewAll`, `canAll`, `canCreate`, `canView`, `canEdit`, `canRemove`) are fixed per bean. They normally consult the session, which is not modelled.
- The request parameter map and the User-Agent header value are inputs. Case-insensitive lookup of header names is not modelled.
- `getUrlDateParam` takes its `SimpleDateFormat("yyyy-MM-dd HH:mm:ss")` parse as a parameter. The date grammar, leniency and time zones are not modelled, and neither is the `printStackTrace` on failure.
- `JsfServletUtils.showInputStream` is servlet output, and is not modelled.
- `UrlUtils` and `URLUtils`, used by `AbstractController` and `AbstractJSFCRUDMB`, are not part of this model. Their URL readers are taken to behave as `JsfUrlUtils`.
- `VariableUtils.java` declares only `getVariableFromEnvironment` and `getVariableFromResource`, yet `AbstractJSFCRUDMB` and `AbstractController` call `VariableUtils.addErrorMessage(key)`, `addErrorMessage(bundle, key)`, `addErrorMessage(ex, key)` and `addSuccessMessage(bundle, key)`. The model takes these message helpers to behave as those of `JsfVariableUtils`: the one-argument form uses the generic bundle, and `addErrorMessage(ex, "persistence.error.generic")` falls back to the exception's message when it is non-empty (`CrudFlow.EjbReport`).
- Case mapping (`toUpperCase`, `toLowerCase`, `Character.toLowerCase`) covers ASCII letters only.
- `String.hashCode` is taken over Unicode scalar values, not UTF-16 code units.
- JavaNumbers.ParseDecimal: accepts ASCII digits only. Java's parsers read digits with `Character.digit`, which also accepts other Unicode decimal digits (Arabic-Indic or fullwidth, for example). For such text the model reports NumberFormatException where Java parses a number.
- JavaText.CompareStrings: compares Unicode scalar values, while `String.compareTo` compares UTF-16 code units. The two orders differ only between a character above U+FFFF and one from U+E000 to U+FFFF.
- Id classes other than Long, Integer, Short and String (Byte, UUID, BigInteger and so on) are not modelled. For them `getIdFromString` passes the raw text to the lookup, which then finds nothing. Their `hashCode` is the id class's own.
- `toString` returns `getViewString()`, which the model keeps as the entity's `viewString` field; there is no separate member for it.
- Entities are values. Aliasing between `selected`, the cached `all` and the DAO's rows is not modelled: a later change to one object is not seen through another.
- `setSelected`, `setNewSelected` and `setAll` are plain field setters, and are not modelled separately.
- DaoCommon.Sort: states sorted and a permutation, but not the stability of `Collections.sort`, which keeps entities that compare equal in their original order.
- Dao.EntityDao.Sort: likewise, stability is not stated.
- ModelDao.CachingDao.Sort: likewise, stability is not stated.
