/**
 * The document store the core talks to, as an in-memory object: named collections of
 * documents, listed in a fixed order, and a schedule saying at which call the backend
 * is unreachable (every store call gets the next call number).
 */
module Firestore {
  import opened Wrappers
  import opened Values

  datatype Document = Document(id: string, data: Fields)

  datatype StoreError = Unavailable | InvalidDocumentId | NotFound | AlreadyExists

  predicate Matches(d: Document, field: string, v: Value) {
    FieldIs(d.data, field, v)
  }

  /** The position of the first document whose `field` equals `v`. */
  function FirstMatch(docs: seq<Document>, field: string, v: Value): (r: Option<nat>)
    ensures r.Some? ==> r.value < |docs| && Matches(docs[r.value], field, v)
    ensures r.Some? ==> forall j :: 0 <= j < r.value ==> !Matches(docs[j], field, v)
    ensures r.None? ==> forall j :: 0 <= j < |docs| ==> !Matches(docs[j], field, v)
  {
    if docs == [] then None
    else if Matches(docs[0], field, v) then Some(0)
    else match FirstMatch(docs[1..], field, v)
      case None => None
      case Some(i) => Some(i + 1)
  }

  /** Documents added after the first match do not change which document a query finds. */
  lemma FirstMatchExtend(docs: seq<Document>, rest: seq<Document>, field: string, v: Value)
    requires FirstMatch(docs, field, v).Some?
    ensures FirstMatch(docs + rest, field, v) == FirstMatch(docs, field, v)
  {
    var i := FirstMatch(docs, field, v).value;
    assert (docs + rest)[i] == docs[i];
    var k := FirstMatch(docs + rest, field, v);
    assert k.Some?;
  }

  /** A document appended to a collection where nothing matches is the one a query finds. */
  lemma FirstMatchAppend(docs: seq<Document>, d: Document, field: string, v: Value)
    requires FirstMatch(docs, field, v).None? && Matches(d, field, v)
    ensures FirstMatch(docs + [d], field, v) == Some(|docs|)
  {
    var k := FirstMatch(docs + [d], field, v);
    assert (docs + [d])[|docs|] == d;
    assert k.Some?;
  }

  /** The position of the document stored under `id`. */
  function IndexOfId(docs: seq<Document>, id: string): (r: Option<nat>)
    ensures r.Some? ==> r.value < |docs| && docs[r.value].id == id
    ensures r.Some? ==> forall j :: 0 <= j < r.value ==> docs[j].id != id
    ensures r.None? ==> forall j :: 0 <= j < |docs| ==> docs[j].id != id
  {
    if docs == [] then None
    else if docs[0].id == id then Some(0)
    else match IndexOfId(docs[1..], id)
      case None => None
      case Some(i) => Some(i + 1)
  }

  /** A query with one equality filter and `Limit: 1`: the first matching document, if any. */
  function QueryOne(docs: seq<Document>, field: string, v: Value): (r: seq<Document>)
    ensures |r| <= 1
    ensures |r| == 1 <==> exists j :: 0 <= j < |docs| && Matches(docs[j], field, v)
    ensures |r| == 1 ==> r[0] in docs && Matches(r[0], field, v)
  {
    match FirstMatch(docs, field, v)
    case None => []
    case Some(i) => [docs[i]]
  }

  /** Reading one document by id. */
  function Lookup(docs: seq<Document>, id: string, unavailable: bool): (r: Result<Document, StoreError>)
    ensures r.Success? <==> !unavailable && id != "" && exists j :: 0 <= j < |docs| && docs[j].id == id
    ensures r.Success? ==> r.value in docs && r.value.id == id
  {
    if unavailable then Failure(Unavailable)
    else if id == "" then Failure(InvalidDocumentId)
    else match IndexOfId(docs, id)
      case None => Failure(NotFound)
      case Some(i) => Success(docs[i])
  }

  /** The collection with the data of document `id` replaced by `data` (unchanged when absent). */
  function WithData(docs: seq<Document>, id: string, data: Fields): (r: seq<Document>)
    ensures |r| == |docs|
    ensures forall j :: 0 <= j < |docs| ==> r[j].id == docs[j].id
    ensures forall j :: 0 <= j < |docs| && docs[j].id != id ==> r[j] == docs[j]
  {
    match IndexOfId(docs, id)
    case None => docs
    case Some(i) => docs[i := Document(id, data)]
  }

  /** Replacing the data of an existing document: reading it back gives the new data, and the
      ids stay distinct. */
  lemma WithDataThenLookup(docs: seq<Document>, id: string, data: Fields)
    requires UniqueIds(docs) && Lookup(docs, id, false).Success?
    ensures UniqueIds(WithData(docs, id, data))
    ensures Lookup(WithData(docs, id, data), id, false) == Success(Document(id, data))
  {
    var i := IndexOfId(docs, id).value;
    var r := WithData(docs, id, data);
    assert r[i] == Document(id, data);
    var k := IndexOfId(r, id);
    assert k.Some? && k.value <= i;
  }

  /** The collection after writing `data` under `id`: replaces that document or appends a new one. */
  function Put(docs: seq<Document>, id: string, data: Fields): (r: seq<Document>)
  {
    match IndexOfId(docs, id)
    case None => docs + [Document(id, data)]
    case Some(i) => docs[i := Document(id, data)]
  }

  /** Reading back what was just written under `id` gives exactly that document. */
  lemma PutThenLookup(docs: seq<Document>, id: string, data: Fields)
    requires id != ""
    requires UniqueIds(docs)
    ensures UniqueIds(Put(docs, id, data))
    ensures Lookup(Put(docs, id, data), id, false) == Success(Document(id, data))
  {
    var r := Put(docs, id, data);
    match IndexOfId(docs, id)
    case None =>
      assert r[|docs|] == Document(id, data);
      var k := IndexOfId(r, id);
      assert k.Some? && k.value == |docs|;
    case Some(i) =>
      assert r[i].id == id;
      var k := IndexOfId(r, id);
      assert k.Some?;
      assert k.value <= i;
  }

  /** In a collection with distinct ids, reading a document's id gives back that document. */
  lemma LookupMember(docs: seq<Document>, d: Document)
    requires UniqueIds(docs) && d in docs
    ensures Lookup(docs, d.id, false) == Success(d)
  {
    var i :| 0 <= i < |docs| && docs[i] == d;
    var k := IndexOfId(docs, d.id);
    assert k.Some? && k.value <= i;
  }

  /** No two documents of a collection share an id, and no id is empty. */
  ghost predicate UniqueIds(docs: seq<Document>) {
    && (forall i, j :: 0 <= i < j < |docs| ==> docs[i].id != docs[j].id)
    && (forall i :: 0 <= i < |docs| ==> docs[i].id != "")
  }

  /** The error, if any, of creating document `id`. */
  function CreateError(docs: seq<Document>, id: string, unavailable: bool): (r: Option<StoreError>)
    ensures r.None? <==> !unavailable && id != "" && forall j :: 0 <= j < |docs| ==> docs[j].id != id
  {
    if unavailable then Some(Unavailable)
    else if id == "" then Some(InvalidDocumentId)
    else if IndexOfId(docs, id).Some? then Some(AlreadyExists)
    else None
  }

  /** The error, if any, of updating the existing document `id`. */
  function UpdateError(docs: seq<Document>, id: string, unavailable: bool): (r: Option<StoreError>)
    ensures r.None? <==> Lookup(docs, id, unavailable).Success?
  {
    match Lookup(docs, id, unavailable)
    case Failure(e) => Some(e)
    case Success(_) => None
  }

  /** A two-segment field path `top.sub`, as in "usage.totalRequests". */
  datatype FieldPath = FieldPath(top: string, sub: string)

  datatype Transform = Increment(amount: int) | SetTo(v: Value)

  datatype FieldUpdate = FieldUpdate(path: FieldPath, transform: Transform)

  /** The numeric value at `top.sub`, if there is one. */
  function NumberAt(data: Fields, path: FieldPath): Option<int> {
    if path.top in data && data[path.top].Object? && path.sub in data[path.top].fields
       && data[path.top].fields[path.sub].Num?
    then Some(data[path.top].fields[path.sub].n)
    else None
  }

  /** One update: an increment adds to a numeric field and sets a missing or non-numeric one to
      the increment; a set replaces the field. A `top` that is not a map becomes one. */
  function ApplyUpdate(data: Fields, u: FieldUpdate): (r: Fields)
    ensures r.Keys == data.Keys + {u.path.top}
    ensures forall f :: f in data && f != u.path.top ==> r[f] == data[f]
    ensures u.transform.Increment? ==>
      NumberAt(r, u.path) == Some(NumberAt(data, u.path).GetOr(0) + u.transform.amount)
    ensures u.transform.SetTo? ==>
      && r[u.path.top].Object? && u.path.sub in r[u.path.top].fields
      && r[u.path.top].fields[u.path.sub] == u.transform.v
  {
    var inner := if u.path.top in data && data[u.path.top].Object? then data[u.path.top].fields else map[];
    var v := match u.transform
      case Increment(amount) => Num(NumberAt(data, u.path).GetOr(0) + amount)
      case SetTo(x) => x;
    data[u.path.top := Object(inner[u.path.sub := v])]
  }

  /** An update leaves every other path as it was, provided `top` already held a map. */
  lemma ApplyUpdateElsewhere(data: Fields, u: FieldUpdate, p: FieldPath)
    requires p.top != u.path.top || (p.sub != u.path.sub && u.path.top in data && data[u.path.top].Object?)
    ensures NumberAt(ApplyUpdate(data, u), p) == NumberAt(data, p)
  {
  }

  function ApplyUpdates(data: Fields, updates: seq<FieldUpdate>): Fields
    decreases |updates|
  {
    if updates == [] then data else ApplyUpdates(ApplyUpdate(data, updates[0]), updates[1..])
  }

  class Store {
    var collections: map<string, seq<Document>>
    /** The number of store calls made so far. */
    var calls: nat
    /** The numbers of the calls at which the backend cannot be reached. */
    const outages: set<nat>

    ghost predicate Valid()
      reads this
    {
      forall name :: name in collections ==> UniqueIds(collections[name])
    }

    constructor (collections: map<string, seq<Document>>, outages: set<nat>)
      requires forall name :: name in collections ==> UniqueIds(collections[name])
      ensures Valid()
      ensures this.collections == collections && this.outages == outages && calls == 0
    {
      this.collections := collections;
      this.outages := outages;
      calls := 0;
    }

    function Collection(name: string): seq<Document>
      reads this
    {
      if name in collections then collections[name] else []
    }

    /** Whether the next call fails because the backend is unreachable. */
    predicate NextFails()
      reads this
    {
      calls in outages
    }

    /** QueryDocuments with one `field == v` filter and `Limit: 1`. */
    method QueryDocuments(name: string, field: string, v: Value) returns (r: Result<seq<Document>, StoreError>)
      modifies this`calls
      ensures calls == old(calls) + 1
      ensures r == if old(NextFails()) then Failure(Unavailable) else Success(QueryOne(Collection(name), field, v))
    {
      if NextFails() {
        r := Failure(Unavailable);
      } else {
        r := Success(QueryOne(Collection(name), field, v));
      }
      calls := calls + 1;
    }

    /** GetDocument: the document stored under `id`. */
    method GetDocument(name: string, id: string) returns (r: Result<Document, StoreError>)
      modifies this`calls
      ensures calls == old(calls) + 1
      ensures r == Lookup(Collection(name), id, old(NextFails()))
    {
      r := Lookup(Collection(name), id, NextFails());
      calls := calls + 1;
    }

    /** CreateDocumentWithID: adds a new document; fails if the id is taken. */
    method CreateDocumentWithID(name: string, id: string, data: Fields) returns (err: Option<StoreError>)
      requires Valid()
      modifies this
      ensures Valid()
      ensures calls == old(calls) + 1
      ensures err == CreateError(old(Collection(name)), id, old(NextFails()))
      ensures collections == if err.Some? then old(collections)
                             else old(collections)[name := old(Collection(name)) + [Document(id, data)]]
    {
      err := CreateError(Collection(name), id, NextFails());
      if err.None? {
        var docs := Collection(name);
        assert IndexOfId(docs, id).None?;
        collections := collections[name := docs + [Document(id, data)]];
      }
      calls := calls + 1;
    }

    /** `Doc(id).Set(data)`: writes the whole document, replacing any previous one. */
    method SetDocument(name: string, id: string, data: Fields) returns (err: Option<StoreError>)
      requires Valid()
      modifies this
      ensures Valid()
      ensures calls == old(calls) + 1
      ensures err == if old(NextFails()) then Some(Unavailable) else if id == "" then Some(InvalidDocumentId) else None
      ensures collections == if err.Some? then old(collections)
                             else old(collections)[name := Put(old(Collection(name)), id, data)]
    {
      if NextFails() {
        err := Some(Unavailable);
      } else if id == "" {
        err := Some(InvalidDocumentId);
      } else {
        err := None;
        var docs := Collection(name);
        PutThenLookup(docs, id, data);
        collections := collections[name := Put(docs, id, data)];
      }
      calls := calls + 1;
    }

    /** UpdateDocument: merges `fields` into the existing document `id`; fails if there is none. */
    method UpdateDocument(name: string, id: string, fields: Fields) returns (err: Option<StoreError>)
      requires Valid()
      modifies this
      ensures Valid()
      ensures calls == old(calls) + 1
      ensures err == UpdateError(old(Collection(name)), id, old(NextFails()))
      ensures collections == if err.Some? then old(collections)
                             else old(collections)[name := WithData(old(Collection(name)), id,
                                    Lookup(old(Collection(name)), id, false).value.data + fields)]
    {
      err := UpdateError(Collection(name), id, NextFails());
      if err.None? {
        var docs := Collection(name);
        collections := collections[name := WithData(docs, id, Lookup(docs, id, false).value.data + fields)];
      }
      calls := calls + 1;
    }

    /** UpdateDocumentFields: applies field-path updates to the existing document `id`. */
    method UpdateDocumentFields(name: string, id: string, updates: seq<FieldUpdate>) returns (err: Option<StoreError>)
      requires Valid()
      modifies this
      ensures Valid()
      ensures calls == old(calls) + 1
      ensures err == UpdateError(old(Collection(name)), id, old(NextFails()))
      ensures collections == if err.Some? then old(collections)
                             else old(collections)[name := WithData(old(Collection(name)), id,
                                    ApplyUpdates(Lookup(old(Collection(name)), id, false).value.data, updates))]
    {
      err := UpdateError(Collection(name), id, NextFails());
      if err.None? {
        var docs := Collection(name);
        collections := collections[name := WithData(docs, id, ApplyUpdates(Lookup(docs, id, false).value.data, updates))];
      }
      calls := calls + 1;
    }
  }
}
