/** The per-browser profile store of src/utils/storage.ts. The browser's
    localStorage is the `LocalStore` object: the `userId` entry and the
    `userData_<id>` entries, where a parsed entry is a `UserData` value and
    `None` stands for an entry whose JSON does not parse. */
module Storage {
  import opened Wrappers
  import opened AppTypes

  datatype Project = Project(
    id: string, name: string, letterheadId: Option<string>,
    documentData: DocumentData, createdAt: string, updatedAt: string)

  /** A parsed profile. A list field is `None` when the stored JSON lacks it. */
  datatype UserData = UserData(
    userId: string,
    letterheads: Option<seq<Letterhead>>,
    savedDocuments: Option<seq<SavedDocument>>,
    projects: Option<seq<Project>>)

  /** The profile returned when nothing usable is stored. */
  function EmptyUserData(userId: string): UserData {
    UserData(userId, Some([]), Some([]), Some([]))
  }

  function LetterheadId(l: Letterhead): string { l.id }
  function DocumentId(d: SavedDocument): string { d.id }

  // ---------------------------------------------------------------------------
  // Lists keyed by id

  predicate HasId<T>(xs: seq<T>, id: string, key: T -> string) {
    exists j :: 0 <= j < |xs| && key(xs[j]) == id
  }

  predicate UniqueIds<T>(xs: seq<T>, key: T -> string) {
    forall i, j :: 0 <= i < j < |xs| ==> key(xs[i]) != key(xs[j])
  }

  /** `xs.findIndex(e => e.id === id)`: the first position holding `id`, or -1. */
  function FirstIndex<T>(xs: seq<T>, id: string, key: T -> string): (i: int)
    ensures -1 <= i < |xs|
    ensures i >= 0 ==> key(xs[i]) == id
    ensures forall j :: 0 <= j < |xs| && (i < 0 || j < i) ==> key(xs[j]) != id
  {
    if xs == [] then -1
    else if key(xs[0]) == id then 0
    else
      var k := FirstIndex(xs[1..], id, key);
      if k < 0 then -1 else k + 1
  }

  /** The linear search behind `findIndex`. */
  method FindIndex<T>(xs: seq<T>, id: string, key: T -> string) returns (i: int)
    ensures i == FirstIndex(xs, id, key)
    ensures i == -1 <==> !HasId(xs, id, key)
  {
    i := 0;
    while i < |xs|
      invariant 0 <= i <= |xs|
      invariant forall j :: 0 <= j < i ==> key(xs[j]) != id
    {
      if key(xs[i]) == id {
        return;
      }
      i := i + 1;
    }
    i := -1;
  }

  /** Replace the entry with `x`'s id in place, or append `x`. */
  function Upsert<T>(xs: seq<T>, x: T, key: T -> string): seq<T> {
    var i := FirstIndex(xs, key(x), key);
    if i >= 0 then xs[i := x] else xs + [x]
  }

  /** When the id is present at position `i` (its first occurrence), the entry
      there is replaced and the length and every other entry are kept. */
  lemma UpsertReplacesInPlace<T>(xs: seq<T>, x: T, key: T -> string, i: int)
    requires 0 <= i < |xs| && key(xs[i]) == key(x)
    requires forall j :: 0 <= j < i ==> key(xs[j]) != key(x)
    ensures |Upsert(xs, x, key)| == |xs|
    ensures Upsert(xs, x, key)[i] == x
    ensures forall j :: 0 <= j < |xs| && j != i ==> Upsert(xs, x, key)[j] == xs[j]
  {
  }

  /** When the id is new, the entry goes at the end and the length grows by one. */
  lemma UpsertAppends<T>(xs: seq<T>, x: T, key: T -> string)
    requires !HasId(xs, key(x), key)
    ensures Upsert(xs, x, key) == xs + [x]
    ensures |Upsert(xs, x, key)| == |xs| + 1
  {
  }

  /** After an upsert, `x` is in the list and every other entry came from `xs`. */
  lemma UpsertContents<T>(xs: seq<T>, x: T, key: T -> string)
    ensures x in Upsert(xs, x, key)
    ensures forall y :: y in Upsert(xs, x, key) ==> y == x || y in xs
    ensures forall y :: y in xs && key(y) != key(x) ==> y in Upsert(xs, x, key)
  {
    var r := Upsert(xs, x, key);
    var i := FirstIndex(xs, key(x), key);
    if i >= 0 {
      assert r[i] == x;
    } else {
      assert r[|xs|] == x;
    }
    forall y | y in xs && key(y) != key(x) ensures y in r {
      var j :| 0 <= j < |xs| && xs[j] == y;
      assert r[j] == y;
    }
  }

  /** Unique ids stay unique through an upsert. */
  lemma UpsertKeepsIdsUnique<T>(xs: seq<T>, x: T, key: T -> string)
    requires UniqueIds(xs, key)
    ensures UniqueIds(Upsert(xs, x, key), key)
  {
    var i := FirstIndex(xs, key(x), key);
    var r := Upsert(xs, x, key);
    if i >= 0 {
      forall a, b | 0 <= a < b < |r| ensures key(r[a]) != key(r[b]) {
        if a == i {
          assert key(r[a]) == key(xs[i]);
        } else if b == i {
          assert key(r[b]) == key(xs[i]);
        }
      }
    } else {
      forall a, b | 0 <= a < b < |r| ensures key(r[a]) != key(r[b]) {
        if b == |xs| {
          assert r[b] == x && r[a] == xs[a];
        }
      }
    }
  }

  /** `xs.filter(e => e.id !== id)`. */
  function RemoveId<T>(xs: seq<T>, id: string, key: T -> string): (r: seq<T>)
    ensures |r| <= |xs|
    ensures forall y :: y in r ==> y in xs && key(y) != id
  {
    if xs == [] then []
    else (if key(xs[0]) != id then [xs[0]] else []) + RemoveId(xs[1..], id, key)
  }

  /** Filtering distributes over concatenation, so it keeps the relative
      order of the entries it keeps. */
  lemma {:induction false} RemoveIdConcat<T>(xs: seq<T>, ys: seq<T>, id: string, key: T -> string)
    ensures RemoveId(xs + ys, id, key) == RemoveId(xs, id, key) + RemoveId(ys, id, key)
  {
    if xs == [] {
      assert xs + ys == ys;
    } else {
      assert (xs + ys)[1..] == xs[1..] + ys;
      RemoveIdConcat(xs[1..], ys, id, key);
    }
  }

  /** Every entry with another id survives the filter. */
  lemma {:induction false} RemoveIdKeepsOthers<T>(xs: seq<T>, id: string, key: T -> string)
    ensures forall y :: y in xs && key(y) != id ==> y in RemoveId(xs, id, key)
  {
    if xs != [] {
      RemoveIdKeepsOthers(xs[1..], id, key);
      forall y | y in xs && key(y) != id ensures y in RemoveId(xs, id, key) {
        if y != xs[0] {
          assert y in xs[1..];
        }
      }
    }
  }

  /** Filtering out an id that is absent changes nothing. */
  lemma {:induction false} RemoveIdAbsent<T>(xs: seq<T>, id: string, key: T -> string)
    requires !HasId(xs, id, key)
    ensures RemoveId(xs, id, key) == xs
  {
    if xs != [] {
      assert !HasId(xs[1..], id, key) by {
        forall j | 0 <= j < |xs[1..]| ensures key(xs[1..][j]) != id {
          assert xs[1..][j] == xs[j + 1];
        }
      }
      RemoveIdAbsent(xs[1..], id, key);
      assert key(xs[0]) != id;
      assert [xs[0]] + xs[1..] == xs;
    }
  }

  /** With unique ids, deleting a present id removes exactly one entry. */
  lemma RemoveIdUniqueDropsOne<T>(xs: seq<T>, id: string, key: T -> string)
    requires UniqueIds(xs, key) && HasId(xs, id, key)
    ensures |RemoveId(xs, id, key)| == |xs| - 1
  {
    var i :| 0 <= i < |xs| && key(xs[i]) == id;
    var pre, post := xs[..i], xs[i + 1..];
    assert xs == pre + [xs[i]] + post;
    assert !HasId(pre, id, key) by {
      forall j | 0 <= j < |pre| ensures key(pre[j]) != id {
        assert pre[j] == xs[j];
      }
    }
    assert !HasId(post, id, key) by {
      forall j | 0 <= j < |post| ensures key(post[j]) != id {
        assert post[j] == xs[i + 1 + j];
      }
    }
    RemoveIdConcat(pre + [xs[i]], post, id, key);
    RemoveIdConcat(pre, [xs[i]], id, key);
    RemoveIdAbsent(pre, id, key);
    RemoveIdAbsent(post, id, key);
    assert RemoveId([xs[i]], id, key) == [];
  }

  // ---------------------------------------------------------------------------
  // The user id and the stored profile

  /** The id template `user_${Date.now()}_${random}`, with the clock reading
      and the random part as parameters. */
  function NewUserId(timestamp: string, random: string): (id: string)
    ensures id != ""
  {
    "user_" + timestamp + "_" + random
  }

  /** The id `getUserId` returns: the stored one when it is a non-empty string,
      otherwise a freshly generated one. */
  function ResolveUserId(stored: Option<string>, timestamp: string, random: string): (id: string)
    ensures id != ""
    ensures Truthy(stored) ==> id == stored.value
    ensures !Truthy(stored) ==> id == NewUserId(timestamp, random)
  {
    if Truthy(stored) then stored.value else NewUserId(timestamp, random)
  }

  /** Once an id has been stored, every later call returns it, whatever clock
      reading and random part it is given. */
  lemma UserIdIsStable(stored: Option<string>, t1: string, r1: string, t2: string, r2: string)
    ensures var id := ResolveUserId(stored, t1, r1);
      ResolveUserId(Some(id), t2, r2) == id
  {
  }

  /** `getUserData` after the id is known: the parsed profile, or the empty
      profile when the entry is missing or unparsable. */
  function LoadUserData(userId: string, items: map<string, Option<UserData>>): UserData {
    if userId in items && items[userId].Some? then items[userId].value else EmptyUserData(userId)
  }

  /** `list || []`. */
  function ListOrEmpty<T>(list: Option<seq<T>>): seq<T> {
    list.GetOr([])
  }

  class LocalStore {
    /** The `userId` entry. */
    var userIdItem: Option<string>
    /** The `userData_<id>` entries, keyed by the user id. */
    var dataItems: map<string, Option<UserData>>

    constructor (userIdItem: Option<string>, dataItems: map<string, Option<UserData>>)
      ensures this.userIdItem == userIdItem && this.dataItems == dataItems
    {
      this.userIdItem := userIdItem;
      this.dataItems := dataItems;
    }

    /** `getUserId`: returns the stored id, or generates, stores and returns one. */
    method GetUserId(timestamp: string, random: string) returns (userId: string)
      modifies this
      ensures userId == ResolveUserId(old(userIdItem), timestamp, random)
      ensures Truthy(old(userIdItem)) ==> userIdItem == old(userIdItem)
      ensures userIdItem == Some(userId)
      ensures dataItems == old(dataItems)
    {
      if Truthy(userIdItem) {
        userId := userIdItem.value;
      } else {
        userId := NewUserId(timestamp, random);
        userIdItem := Some(userId);
      }
    }

    /** `getUserData`: never fails and never writes a profile entry. */
    method GetUserData(timestamp: string, random: string) returns (data: UserData)
      modifies this
      ensures var id := ResolveUserId(old(userIdItem), timestamp, random);
        && userIdItem == Some(id)
        && data == LoadUserData(id, old(dataItems))
        && (id !in old(dataItems) || old(dataItems)[id].None? ==> data == EmptyUserData(id))
      ensures dataItems == old(dataItems)
    {
      var userId := GetUserId(timestamp, random);
      if userId in dataItems && dataItems[userId].Some? {
        data := dataItems[userId].value;
      } else {
        data := EmptyUserData(userId);
      }
    }

    /** `saveUserData`: replaces the whole profile entry. */
    method SaveUserData(data: UserData, timestamp: string, random: string)
      modifies this
      ensures var id := ResolveUserId(old(userIdItem), timestamp, random);
        userIdItem == Some(id) && dataItems == old(dataItems)[id := Some(data)]
    {
      var userId := GetUserId(timestamp, random);
      dataItems := dataItems[userId := Some(data)];
    }

    /** `saveLetterhead`: upserts by id. `ok` is false when the parsed profile
        has no letterhead list, where the source throws before writing. */
    method SaveLetterhead(letterhead: Letterhead, timestamp: string, random: string) returns (ok: bool)
      modifies this
      ensures var id := ResolveUserId(old(userIdItem), timestamp, random);
        var data := LoadUserData(id, old(dataItems));
        && userIdItem == Some(id)
        && ok == data.letterheads.Some?
        && dataItems == if ok
          then old(dataItems)[id := Some(data.(letterheads := Some(Upsert(data.letterheads.value, letterhead, LetterheadId))))]
          else old(dataItems)
    {
      var data := GetUserData(timestamp, random);
      if data.letterheads.None? {
        ok := false;
        return;
      }
      var list := data.letterheads.value;
      var existingIndex := FindIndex(list, letterhead.id, LetterheadId);
      if existingIndex >= 0 {
        list := list[existingIndex := letterhead];
      } else {
        list := list + [letterhead];
      }
      SaveUserData(data.(letterheads := Some(list)), timestamp, random);
      ok := true;
    }

    /** `getLetterheads`: the stored list, or [] when it is missing. */
    method GetLetterheads(timestamp: string, random: string) returns (letterheads: seq<Letterhead>)
      modifies this
      ensures var id := ResolveUserId(old(userIdItem), timestamp, random);
        && userIdItem == Some(id)
        && letterheads == ListOrEmpty(LoadUserData(id, old(dataItems)).letterheads)
      ensures dataItems == old(dataItems)
    {
      var data := GetUserData(timestamp, random);
      letterheads := ListOrEmpty(data.letterheads);
    }

    /** `saveDocument`: upserts by id; the letterhead list is not touched. */
    method SaveDocument(document: SavedDocument, timestamp: string, random: string) returns (ok: bool)
      modifies this
      ensures var id := ResolveUserId(old(userIdItem), timestamp, random);
        var data := LoadUserData(id, old(dataItems));
        && userIdItem == Some(id)
        && ok == data.savedDocuments.Some?
        && dataItems == if ok
          then old(dataItems)[id := Some(data.(savedDocuments := Some(Upsert(data.savedDocuments.value, document, DocumentId))))]
          else old(dataItems)
      ensures var id := ResolveUserId(old(userIdItem), timestamp, random);
        LoadUserData(id, dataItems).letterheads == LoadUserData(id, old(dataItems)).letterheads
    {
      var data := GetUserData(timestamp, random);
      if data.savedDocuments.None? {
        ok := false;
        return;
      }
      var list := data.savedDocuments.value;
      var existingIndex := FindIndex(list, document.id, DocumentId);
      if existingIndex >= 0 {
        list := list[existingIndex := document];
      } else {
        list := list + [document];
      }
      SaveUserData(data.(savedDocuments := Some(list)), timestamp, random);
      ok := true;
    }

    /** `getSavedDocuments`: the stored list, or [] when it is missing. */
    method GetSavedDocuments(timestamp: string, random: string) returns (documents: seq<SavedDocument>)
      modifies this
      ensures var id := ResolveUserId(old(userIdItem), timestamp, random);
        && userIdItem == Some(id)
        && documents == ListOrEmpty(LoadUserData(id, old(dataItems)).savedDocuments)
      ensures dataItems == old(dataItems)
    {
      var data := GetUserData(timestamp, random);
      documents := ListOrEmpty(data.savedDocuments);
    }

    /** `deleteDocument`: filters the saved documents; letterheads untouched. */
    method DeleteDocument(documentId: string, timestamp: string, random: string) returns (ok: bool)
      modifies this
      ensures var id := ResolveUserId(old(userIdItem), timestamp, random);
        var data := LoadUserData(id, old(dataItems));
        && userIdItem == Some(id)
        && ok == data.savedDocuments.Some?
        && dataItems == if ok
          then old(dataItems)[id := Some(data.(savedDocuments := Some(RemoveId(data.savedDocuments.value, documentId, DocumentId))))]
          else old(dataItems)
      ensures var id := ResolveUserId(old(userIdItem), timestamp, random);
        LoadUserData(id, dataItems).letterheads == LoadUserData(id, old(dataItems)).letterheads
    {
      var data := GetUserData(timestamp, random);
      if data.savedDocuments.None? {
        ok := false;
        return;
      }
      SaveUserData(data.(savedDocuments := Some(RemoveId(data.savedDocuments.value, documentId, DocumentId))), timestamp, random);
      ok := true;
    }

    /** `deleteLetterhead`: filters the letterheads; saved documents, including
        the letterhead each one embeds, are untouched. */
    method DeleteLetterhead(letterheadId: string, timestamp: string, random: string) returns (ok: bool)
      modifies this
      ensures var id := ResolveUserId(old(userIdItem), timestamp, random);
        var data := LoadUserData(id, old(dataItems));
        && userIdItem == Some(id)
        && ok == data.letterheads.Some?
        && dataItems == if ok
          then old(dataItems)[id := Some(data.(letterheads := Some(RemoveId(data.letterheads.value, letterheadId, LetterheadId))))]
          else old(dataItems)
      ensures var id := ResolveUserId(old(userIdItem), timestamp, random);
        LoadUserData(id, dataItems).savedDocuments == LoadUserData(id, old(dataItems)).savedDocuments
    {
      var data := GetUserData(timestamp, random);
      if data.letterheads.None? {
        ok := false;
        return;
      }
      SaveUserData(data.(letterheads := Some(RemoveId(data.letterheads.value, letterheadId, LetterheadId))), timestamp, random);
      ok := true;
    }
  }
}
