/**
 * The document service over an in-memory document table: owner-scoped lookups,
 * listing newest first, updates and deletions that only ever touch the caller's
 * own document, and per-type statistics.
 */
module DocumentService {
  import opened Wrappers
  import opened Seqs

  datatype DocumentType = Resume | CoverLetter | ResignationLetter | Website

  const AllTypes: seq<DocumentType> := [Resume, CoverLetter, ResignationLetter, Website]

  /** One row of the document table. Times are numbers of milliseconds. */
  datatype Document = Document(
    id: string,
    userId: string,
    title: string,
    filename: string,
    kind: DocumentType,
    fileUrl: string,
    fileSize: Option<int>,
    mimeType: Option<string>,
    createdAt: int,
    updatedAt: int)

  datatype ServiceError = NotFound(message: string) | DuplicateId

  const DocumentNotFound: string := "Document not found"

  /** No two rows share an id: the table's primary key. */
  predicate UniqueIds(rows: seq<Document>) {
    forall i, j :: 0 <= i < j < |rows| ==> rows[i].id != rows[j].id
  }

  // ---- findAll ----

  /** The `where` of `findAll`: the owner, and the type when one is given. */
  function Matches(userId: string, kind: Option<DocumentType>): Document -> bool {
    (d: Document) => d.userId == userId && (kind.Some? ==> d.kind == kind.value)
  }

  function UpdatedAt(d: Document): int {
    d.updatedAt
  }

  predicate NewestFirst(s: seq<Document>) {
    SortedDesc(UpdatedAt, s)
  }

  /** `findAll`: the owner's documents (of the given type), newest first. */
  function FindAll(rows: seq<Document>, userId: string, kind: Option<DocumentType>): (r: seq<Document>)
    ensures NewestFirst(r)
    ensures multiset(r) == multiset(Filter(Matches(userId, kind), rows))
  {
    SortDesc(UpdatedAt, Filter(Matches(userId, kind), rows))
  }

  /** Exactly the owner's matching rows are listed: nobody else's, and none of the owner's left out. */
  lemma FindAllExactly(rows: seq<Document>, userId: string, kind: Option<DocumentType>, d: Document)
    ensures d in FindAll(rows, userId, kind) <==>
      d in rows && d.userId == userId && (kind.Some? ==> d.kind == kind.value)
  {
    var kept := Filter(Matches(userId, kind), rows);
    assert d in FindAll(rows, userId, kind) <==> d in multiset(kept);
    if d in rows && Matches(userId, kind)(d) {
      var k :| 0 <= k < |rows| && rows[k] == d;
      FilterKeeps(Matches(userId, kind), rows, k);
    }
  }

  /** Another user's rows never change what a user is listed. */
  lemma FindAllIgnoresOthers(rows: seq<Document>, other: seq<Document>, userId: string, kind: Option<DocumentType>)
    requires forall d :: d in other ==> d.userId != userId
    ensures FindAll(rows + other, userId, kind) == FindAll(rows, userId, kind)
  {
    FilterAppend(Matches(userId, kind), rows, other);
    FilterNone(Matches(userId, kind), other);
    assert Filter(Matches(userId, kind), rows) + [] == Filter(Matches(userId, kind), rows);
  }

  // ---- findOne ----

  /** `findFirst({ where: { id, userId } })`: the index of the first row with that id and owner. */
  function IndexOfDocument(rows: seq<Document>, id: string, userId: string): (r: Option<nat>)
    ensures r.None? <==> forall j :: 0 <= j < |rows| ==> !(rows[j].id == id && rows[j].userId == userId)
    ensures r.Some? ==> r.value < |rows| && rows[r.value].id == id && rows[r.value].userId == userId
    ensures r.Some? ==> forall j :: 0 <= j < r.value ==> !(rows[j].id == id && rows[j].userId == userId)
  {
    if rows == [] then None
    else if rows[0].id == id && rows[0].userId == userId then Some(0)
    else
      match IndexOfDocument(rows[1..], id, userId)
      case None => None
      case Some(k) => Some(k + 1)
  }

  /** `findOne`: the document, or NotFound when it is missing or belongs to someone else. */
  function FindOne(rows: seq<Document>, id: string, userId: string): (r: Result<Document, ServiceError>)
    ensures r.Ok? <==> exists j :: 0 <= j < |rows| && rows[j].id == id && rows[j].userId == userId
    ensures r.Ok? ==> r.value in rows && r.value.id == id && r.value.userId == userId
    ensures r.Err? ==> r.error == NotFound(DocumentNotFound)
  {
    match IndexOfDocument(rows, id, userId)
    case None => Err(NotFound(DocumentNotFound))
    case Some(i) => Ok(rows[i])
  }

  /** Another user's document is invisible: asking for it by id is NotFound. */
  lemma FindOneOwnerOnly(rows: seq<Document>, id: string, userId: string, owner: string)
    requires UniqueIds(rows)
    requires exists j :: 0 <= j < |rows| && rows[j].id == id && rows[j].userId == owner
    requires owner != userId
    ensures FindOne(rows, id, userId) == Err(NotFound(DocumentNotFound))
  {
    var j :| 0 <= j < |rows| && rows[j].id == id && rows[j].userId == owner;
    assert forall k :: 0 <= k < |rows| && rows[k].id == id ==> k == j;
  }

  // ---- update ----

  /** The fields `update` may change; `None` leaves a field as it is. */
  datatype Patch = Patch(title: Option<string>, kind: Option<DocumentType>)

  /** The row after an update at time `now`. */
  function Apply(d: Document, patch: Patch, now: int): (r: Document)
    ensures r.id == d.id && r.userId == d.userId && r.createdAt == d.createdAt && r.updatedAt == now
    ensures r.title == patch.title.GetOr(d.title) && r.kind == patch.kind.GetOr(d.kind)
    ensures r.filename == d.filename && r.fileUrl == d.fileUrl && r.fileSize == d.fileSize && r.mimeType == d.mimeType
  {
    d.(title := patch.title.GetOr(d.title), kind := patch.kind.GetOr(d.kind), updatedAt := now)
  }

  // ---- getDocumentStats ----

  function Owned(userId: string): Document -> bool {
    (d: Document) => d.userId == userId
  }

  function OfType(userId: string, t: DocumentType): Document -> bool {
    (d: Document) => d.userId == userId && d.kind == t
  }

  function TypeCount(rows: seq<Document>, userId: string, t: DocumentType): nat {
    Count(OfType(userId, t), rows)
  }

  /** One row of the database's `groupBy` result. */
  datatype TypeGroup = TypeGroup(kind: DocumentType, count: nat)

  predicate NonEmptyGroup(g: TypeGroup) {
    g.count > 0
  }

  function GroupOf(rows: seq<Document>, userId: string): DocumentType -> TypeGroup {
    (t: DocumentType) => TypeGroup(t, TypeCount(rows, userId, t))
  }

  /** The `groupBy` over the owner's rows: one group per type that occurs, in enum order. */
  function GroupByType(rows: seq<Document>, userId: string): seq<TypeGroup> {
    Filter(NonEmptyGroup, Map(GroupOf(rows, userId), AllTypes))
  }

  /** The map the statistics loop builds from the groups: later groups overwrite earlier ones. */
  function StatsOf(groups: seq<TypeGroup>): (m: map<DocumentType, nat>)
    ensures forall t :: t in m <==> exists k :: 0 <= k < |groups| && groups[k].kind == t
  {
    if groups == [] then map[]
    else StatsOf(groups[..|groups| - 1])[groups[|groups| - 1].kind := groups[|groups| - 1].count]
  }

  /** A type's entry in the statistics, absent meaning zero. */
  function Entry(m: map<DocumentType, nat>, t: DocumentType): nat {
    if t in m then m[t] else 0
  }

  /** The sum of the entries of a statistics map. */
  function SumStats(m: map<DocumentType, nat>): nat {
    Entry(m, Resume) + Entry(m, CoverLetter) + Entry(m, ResignationLetter) + Entry(m, Website)
  }

  /** The owner's row count splits into the four per-type counts. */
  lemma {:induction false} CountByType(rows: seq<Document>, userId: string)
    ensures Count(Owned(userId), rows)
         == TypeCount(rows, userId, Resume) + TypeCount(rows, userId, CoverLetter)
          + TypeCount(rows, userId, ResignationLetter) + TypeCount(rows, userId, Website)
  {
    if rows != [] {
      CountByType(rows[1..], userId);
    }
  }

  /** The groups are exactly the occurring types, each with its count. */
  lemma GroupsAreTypeCounts(rows: seq<Document>, userId: string)
    ensures forall k :: 0 <= k < |GroupByType(rows, userId)| ==>
      GroupByType(rows, userId)[k].count == TypeCount(rows, userId, GroupByType(rows, userId)[k].kind) > 0
    ensures forall t :: TypeCount(rows, userId, t) > 0 ==>
      exists k :: 0 <= k < |GroupByType(rows, userId)| && GroupByType(rows, userId)[k].kind == t
  {
    var f := GroupOf(rows, userId);
    var all := Map(f, AllTypes);
    var groups := GroupByType(rows, userId);
    forall k | 0 <= k < |groups|
      ensures groups[k].count == TypeCount(rows, userId, groups[k].kind) > 0
    {
      assert groups[k] in groups;
    }
    forall t | TypeCount(rows, userId, t) > 0
      ensures exists k :: 0 <= k < |groups| && groups[k].kind == t
    {
      var i := match t case Resume => 0 case CoverLetter => 1 case ResignationLetter => 2 case Website => 3;
      assert all[i] == f(t);
      FilterKeeps(NonEmptyGroup, all, i);
    }
  }

  /** A group's count is the statistic stored for its type when no two groups share a type. */
  lemma {:induction false} StatsLookup(groups: seq<TypeGroup>, k: nat)
    requires k < |groups|
    requires DistinctKinds(groups)
    ensures StatsOf(groups)[groups[k].kind] == groups[k].count
    decreases |groups|
  {
    if k != |groups| - 1 {
      StatsLookup(groups[..|groups| - 1], k);
    }
  }

  /** The statistics: an entry exactly for each occurring type, holding its count; the entries sum to the total. */
  lemma StatsAreTypeCounts(rows: seq<Document>, userId: string)
    ensures forall t :: t in StatsOf(GroupByType(rows, userId)) <==> TypeCount(rows, userId, t) > 0
    ensures forall t :: t in StatsOf(GroupByType(rows, userId)) ==>
      StatsOf(GroupByType(rows, userId))[t] == TypeCount(rows, userId, t)
    ensures SumStats(StatsOf(GroupByType(rows, userId))) == Count(Owned(userId), rows)
  {
    var groups := GroupByType(rows, userId);
    var m := StatsOf(groups);
    GroupsAreTypeCounts(rows, userId);
    FilterIsSubsequence(NonEmptyGroup, Map(GroupOf(rows, userId), AllTypes));
    GroupKindsDistinct(rows, userId);
    forall t | t in m
      ensures m[t] == TypeCount(rows, userId, t)
    {
      var k :| 0 <= k < |groups| && groups[k].kind == t;
      StatsLookup(groups, k);
    }
    forall t
      ensures Entry(m, t) == TypeCount(rows, userId, t)
    {
    }
    CountByType(rows, userId);
  }

  predicate DistinctKinds(groups: seq<TypeGroup>) {
    forall i, j :: 0 <= i < j < |groups| ==> groups[i].kind != groups[j].kind
  }

  /** The groups come out in enum order, so no type is grouped twice. */
  lemma GroupKindsDistinct(rows: seq<Document>, userId: string)
    ensures DistinctKinds(GroupByType(rows, userId))
  {
    var all := Map(GroupOf(rows, userId), AllTypes);
    assert all[0].kind == Resume && all[1].kind == CoverLetter;
    assert all[2].kind == ResignationLetter && all[3].kind == Website;
    DistinctFilter(all);
  }

  /** Filtering keeps kinds distinct. */
  lemma {:induction false} DistinctFilter(s: seq<TypeGroup>)
    requires DistinctKinds(s)
    ensures DistinctKinds(Filter(NonEmptyGroup, s))
  {
    if s != [] {
      var rest := Filter(NonEmptyGroup, s[1..]);
      DistinctFilter(s[1..]);
      assert DistinctKinds(rest);
      forall g | g in rest
        ensures g.kind != s[0].kind
      {
        var k :| 0 <= k < |s[1..]| && s[1..][k] == g;
        assert s[k + 1] == g;
      }
      if NonEmptyGroup(s[0]) {
        var r := [s[0]] + rest;
        assert Filter(NonEmptyGroup, s) == r;
        forall i, j | 0 <= i < j < |r|
          ensures r[i].kind != r[j].kind
        {
          assert r[j] == rest[j - 1] && rest[j - 1] in rest;
          if i > 0 {
            assert r[i] == rest[i - 1];
          }
        }
      } else {
        assert Filter(NonEmptyGroup, s) == rest;
      }
    }
  }

  /** Removing the row at `i` keeps the ids unique and drops exactly the rows with its id. */
  lemma RemoveAt(rows: seq<Document>, i: nat)
    requires UniqueIds(rows) && i < |rows|
    ensures var r := rows[..i] + rows[i + 1..];
      && UniqueIds(r)
      && |r| == |rows| - 1
      && multiset(r) + multiset{rows[i]} == multiset(rows)
      && forall d :: d in r <==> d in rows && d.id != rows[i].id
  {
    var r := rows[..i] + rows[i + 1..];
    assert rows == rows[..i] + [rows[i]] + rows[i + 1..];
    forall a, b | 0 <= a < b < |r|
      ensures r[a].id != r[b].id
    {
      var a' := if a < i then a else a + 1;
      var b' := if b < i then b else b + 1;
      assert r[a] == rows[a'] && r[b] == rows[b'];
    }
    forall d | d in rows
      ensures d in r <==> d.id != rows[i].id
    {
      var k :| 0 <= k < |rows| && rows[k] == d;
      if k < i {
        assert r[k] == d;
      } else if k > i {
        assert r[k - 1] == d;
      }
    }
    forall d | d in r
      ensures d in rows
    {
      var k :| 0 <= k < |r| && r[k] == d;
      if k < i {
        assert rows[k] == d;
      } else {
        assert rows[k + 1] == d;
      }
    }
  }

  /** The document table. */
  class DocumentTable {
    var rows: seq<Document>

    predicate Valid()
      reads this
    {
      UniqueIds(rows)
    }

    constructor ()
      ensures rows == [] && Valid()
    {
      rows := [];
    }

    /** `create`: a new row; an id already in the table violates the primary key. */
    method Create(doc: Document) returns (r: Result<Document, ServiceError>)
      modifies this
      requires Valid()
      ensures Valid()
      ensures r.Ok? <==> forall j :: 0 <= j < |old(rows)| ==> old(rows)[j].id != doc.id
      ensures r.Ok? ==> r.value == doc && rows == old(rows) + [doc]
      ensures r.Err? ==> r.error == DuplicateId && rows == old(rows)
    {
      if exists j :: 0 <= j < |rows| && rows[j].id == doc.id {
        return Err(DuplicateId);
      }
      rows := rows + [doc];
      r := Ok(doc);
    }

    /**
     * `update`: find the caller's document first; only that row changes. A missing
     * or foreign document is NotFound and the table is unchanged.
     */
    method Update(id: string, userId: string, patch: Patch, now: int) returns (r: Result<Document, ServiceError>)
      modifies this
      requires Valid()
      ensures Valid()
      ensures r.Err? <==> FindOne(old(rows), id, userId).Err?
      ensures r.Err? ==> r.error == NotFound(DocumentNotFound) && rows == old(rows)
      ensures r.Ok? ==> r.value == Apply(FindOne(old(rows), id, userId).value, patch, now)
      ensures r.Ok? ==> |rows| == |old(rows)| && forall j :: 0 <= j < |rows| ==>
        rows[j] == (if old(rows)[j].id == id then Apply(old(rows)[j], patch, now) else old(rows)[j])
      ensures forall j :: 0 <= j < |old(rows)| && old(rows)[j].userId != userId ==> j < |rows| && rows[j] == old(rows)[j]
    {
      var found := IndexOfDocument(rows, id, userId);
      if found.None? {
        return Err(NotFound(DocumentNotFound));
      }
      var i := found.value;
      var updated := Apply(rows[i], patch, now);
      rows := rows[i := updated];
      r := Ok(updated);
    }

    /**
     * `delete`: find the caller's document first, then remove exactly that row. A
     * missing or foreign document is NotFound and the table is unchanged.
     */
    method Delete(id: string, userId: string) returns (r: Result<Document, ServiceError>)
      modifies this
      requires Valid()
      ensures Valid()
      ensures r.Err? <==> FindOne(old(rows), id, userId).Err?
      ensures r.Err? ==> r.error == NotFound(DocumentNotFound) && rows == old(rows)
      ensures r.Ok? ==> r.value == FindOne(old(rows), id, userId).value
      ensures r.Ok? ==> |rows| == |old(rows)| - 1 && multiset(rows) + multiset{r.value} == multiset(old(rows))
      ensures r.Ok? ==> forall d :: d in rows <==> d in old(rows) && d.id != id
    {
      var found := IndexOfDocument(rows, id, userId);
      if found.None? {
        return Err(NotFound(DocumentNotFound));
      }
      var i := found.value;
      r := Ok(rows[i]);
      RemoveAt(rows, i);
      rows := rows[..i] + rows[i + 1..];
    }

    /** `getDocumentStats`: the owner's total and the per-type counts, filled from the groups. */
    method GetDocumentStats(userId: string) returns (totalDocuments: nat, documentsByType: map<DocumentType, nat>)
      ensures totalDocuments == Count(Owned(userId), rows)
      ensures documentsByType == StatsOf(GroupByType(rows, userId))
      ensures forall t :: t in documentsByType <==> TypeCount(rows, userId, t) > 0
      ensures forall t :: t in documentsByType ==> documentsByType[t] == TypeCount(rows, userId, t)
      ensures SumStats(documentsByType) == totalDocuments
    {
      totalDocuments := Count(Owned(userId), rows);
      var groups := GroupByType(rows, userId);
      documentsByType := map[];
      var i := 0;
      while i < |groups|
        invariant 0 <= i <= |groups|
        invariant documentsByType == StatsOf(groups[..i])
      {
        assert groups[..i + 1][..i] == groups[..i];
        documentsByType := documentsByType[groups[i].kind := groups[i].count];
        i := i + 1;
      }
      assert groups[..i] == groups;
      StatsAreTypeCounts(rows, userId);
    }
  }
}
