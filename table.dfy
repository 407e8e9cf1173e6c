/** The record table both handlers share, seen through the document client:
    a map from id to item, where an item maps attribute names to values.
    The store also keeps a journal of every external effect in the order it
    happened: table writes, and notification attempts with whether they were
    delivered. */
module Table {
  import opened Common

  /** The attribute names the two handlers read and write: id, title, link,
      guid, pubDate, creator, summary, mediaContent, location, lat, lng and
      notified. */
  datatype Attr =
    | Id | Title | Link | Guid | PubDate | Creator | Summary | MediaContent
    | Location | Lat | Lng | Notified

  /** One stored item: attribute name to value. */
  type Item = map<Attr, Json>

  datatype Effect =
    | PutItem(id: string)                    // an item written whole under `id`
    | UpdateItem(id: string, names: set<Attr>) // an update expression setting `names`
    | Notice(text: string, delivered: bool)  // one notification attempt

  /** No value of the update is JavaScript's `undefined`. */
  predicate Defined(changes: map<Attr, Option<Json>>) {
    forall n :: n in changes ==> changes[n].Some?
  }

  /** The values of an update whose values are all defined. */
  function Values(changes: map<Attr, Option<Json>>): (r: map<Attr, Json>)
    requires Defined(changes)
    ensures r.Keys == changes.Keys
    ensures forall n :: n in changes ==> changes[n] == Some(r[n])
  {
    map n | n in changes :: changes[n].value
  }

  /** The item an update expression `set a = :a, ...` leaves under `id`: the
      stored item with the named attributes overwritten, or, when no item has
      that id, a new item holding only the key and those attributes. */
  function Updated(table: map<string, Item>, id: string, changes: map<Attr, Json>): Item {
    (if id in table then table[id] else map[Id := JStr(id)]) + changes
  }

  /** The named attributes take the new values; every other attribute of a
      stored item keeps its value; a missing item gets only its key besides. */
  lemma UpdatedSpec(table: map<string, Item>, id: string, changes: map<Attr, Json>)
    ensures forall n :: n in changes ==> n in Updated(table, id, changes) && Updated(table, id, changes)[n] == changes[n]
    ensures id in table ==> Updated(table, id, changes).Keys == table[id].Keys + changes.Keys
    ensures id in table ==> forall n :: n in table[id] && n !in changes ==> Updated(table, id, changes)[n] == table[id][n]
    ensures id !in table ==> Updated(table, id, changes).Keys == {Id} + changes.Keys
    ensures id !in table && Id !in changes ==> Updated(table, id, changes)[Id] == JStr(id)
  {
  }

  /** Setting the same attributes to the same values a second time changes nothing. */
  lemma UpdatedTwice(table: map<string, Item>, id: string, changes: map<Attr, Json>)
    ensures Updated(table[id := Updated(table, id, changes)], id, changes) == Updated(table, id, changes)
  {
    var once := Updated(table, id, changes);
    var twice := Updated(table[id := once], id, changes);
    UpdatedSpec(table, id, changes);
    UpdatedSpec(table[id := once], id, changes);
    assert twice.Keys == once.Keys;
    forall n | n in once ensures twice[n] == once[n] {
      if n !in changes {
        assert twice[n] == once[n];
      }
    }
  }

  class Store {
    var table: map<string, Item>
    var journal: seq<Effect>

    constructor (initial: map<string, Item>)
      ensures table == initial && journal == []
    {
      table := initial;
      journal := [];
    }

    /** `dynamodb.put`: writes the whole item under its id, or is rejected. */
    method Put(id: string, item: Item, fail: bool) returns (ok: bool)
      requires id != ""
      modifies this
      ensures ok == !fail
      ensures table == (if ok then old(table)[id := item] else old(table))
      ensures journal == (if ok then old(journal) + [PutItem(id)] else old(journal))
    {
      ok := !fail;
      if ok {
        table := table[id := item];
        journal := journal + [PutItem(id)];
      }
    }

    /** `dynamodb.update` with a `set` expression and `ReturnValues: 'ALL_NEW'`:
        no existence check, so a missing id yields a new item. The table
        refuses an empty key and an undefined value. */
    method Update(id: string, changes: map<Attr, Option<Json>>, fail: bool) returns (err: Option<Fault>, after: Item)
      modifies this
      ensures err == (if fail then Some(StoreWriteFailed)
                      else if id == "" || !Defined(changes) then Some(InvalidUpdate)
                      else None)
      ensures err.None? ==> after == Updated(old(table), id, Values(changes))
      ensures err.None? ==> table == old(table)[id := after]
      ensures err.None? ==> journal == old(journal) + [UpdateItem(id, changes.Keys)]
      ensures err.Some? ==> table == old(table) && journal == old(journal)
    {
      after := map[];
      if fail {
        err := Some(StoreWriteFailed);
      } else if id == "" || !Defined(changes) {
        err := Some(InvalidUpdate);
      } else {
        err := None;
        after := Updated(table, id, Values(changes));
        table := table[id := after];
        journal := journal + [UpdateItem(id, changes.Keys)];
      }
    }

    /** `dynamodb.scan`: every stored item, or a rejection. */
    method Scan(fail: bool) returns (err: Option<Fault>, items: map<string, Item>)
      ensures err == (if fail then Some(StoreReadFailed) else None)
      ensures err.None? ==> items == table
    {
      if fail {
        err, items := Some(StoreReadFailed), map[];
      } else {
        err, items := None, table;
      }
    }

    /** One notification attempt. A failed delivery is caught by the sender,
        so it is recorded here and nothing else happens. */
    method Post(text: string, delivered: bool)
      modifies this
      ensures table == old(table)
      ensures journal == old(journal) + [Notice(text, delivered)]
    {
      journal := journal + [Notice(text, delivered)];
    }
  }
}
