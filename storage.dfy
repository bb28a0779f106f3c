/**
 * The app's persistent store (`utils/storage.js`): three JSON-encoded entries
 * of the device's key-value storage, under the keys `user`, `posts` and
 * `consultations`, with a save, a get and (for the two lists) an add for each.
 *
 * The key-value storage itself is the class `Store`, whose one field maps each
 * present key to the value it holds; encoding to JSON and parsing back are
 * taken to give the saved value back exactly. Every call into the storage may
 * fail: each operation takes a flag per storage call saying whether that call
 * fails. Every helper catches its own failure, logs it and carries on, so none
 * of them ever reports an error to its caller.
 */
module Storage {
  import opened Js

  const UserKey: string := "user"
  const PostsKey: string := "posts"
  const ConsultationsKey: string := "consultations"

  /** The entries after `setItem(key, v)`, which changes nothing when it
      fails. */
  function Written(entries: map<string, Value>, key: string, v: Value, fails: bool): (r: map<string, Value>)
    ensures r - {key} == entries - {key}
    ensures !fails ==> key in r && r[key] == v
    ensures fails ==> r == entries
  {
    if fails then entries else entries[key := v]
  }

  /** The entries after `removeItem(key)`, which changes nothing when it
      fails. */
  function Removed(entries: map<string, Value>, key: string, fails: bool): (r: map<string, Value>)
    ensures r - {key} == entries - {key}
    ensures !fails ==> key !in r
    ensures fails ==> r == entries
  {
    if fails then entries else entries - {key}
  }

  /** What a getter returns: the stored value, or `fallback` when the key is
      absent (`getItem` gives null, which is falsy) or when the read fails (the
      getter catches the error). A present entry is a non-empty JSON text and
      therefore truthy, whatever value it encodes. */
  function Fetched(entries: map<string, Value>, key: string, fallback: Value, readFails: bool): (r: Value)
    ensures readFails || key !in entries ==> r == fallback
  {
    if !readFails && key in entries then entries[key] else fallback
  }

  /** `list.unshift(item)` on the value a list getter returned: an array gets
      `item` in front; any other value has no `unshift`, so the call throws
      a TypeError, written `None`. */
  function Unshifted(list: Value, item: Value): (r: Option<Value>)
    ensures r.Some? <==> list.Arr?
    ensures r.Some? ==> (r.value.Arr? && |r.value.items| == |list.items| + 1 && r.value.items[0] == item)
  {
    if list.Arr? then Some(Arr([item] + list.items)) else None
  }

  /** The entries after `addPost` / `addConsultation` under `key`: read the
      list (the empty list when that fails), put `item` in front and write it
      back; when `unshift` throws the add is abandoned before the write. */
  function Added(entries: map<string, Value>, key: string, item: Value, readFails: bool, writeFails: bool): (r: map<string, Value>)
    ensures r - {key} == entries - {key}
    ensures writeFails ==> r == entries
  {
    match Unshifted(Fetched(entries, key, Arr([]), readFails), item)
    case None => entries
    case Some(list) => Written(entries, key, list, writeFails)
  }

  /** The device's key-value storage as the helpers see it. */
  class Store {
    var entries: map<string, Value>

    /** A fresh install: nothing stored. */
    constructor ()
      ensures entries == map[]
    {
      entries := map[];
    }

    /** `saveUser(userData)`. */
    method SaveUser(userData: Value, writeFails: bool)
      modifies this
      ensures entries == Written(old(entries), UserKey, userData, writeFails)
    {
      if !writeFails {
        entries := entries[UserKey := userData];
      }
    }

    /** `getUser()`: the saved user, or null. */
    method GetUser(readFails: bool) returns (user: Value)
      ensures user == Fetched(entries, UserKey, Null, readFails)
    {
      user := Null;
      if !readFails && UserKey in entries {
        user := entries[UserKey];
      }
    }

    /** `removeUser()`. */
    method RemoveUser(fails: bool)
      modifies this
      ensures entries == Removed(old(entries), UserKey, fails)
    {
      if !fails {
        entries := entries - {UserKey};
      }
    }

    /** `savePosts(posts)`: overwrites the whole list. */
    method SavePosts(posts: Value, writeFails: bool)
      modifies this
      ensures entries == Written(old(entries), PostsKey, posts, writeFails)
    {
      if !writeFails {
        entries := entries[PostsKey := posts];
      }
    }

    /** `getPosts()`: the saved list, or the empty list. */
    method GetPosts(readFails: bool) returns (posts: Value)
      ensures posts == Fetched(entries, PostsKey, Arr([]), readFails)
    {
      posts := Arr([]);
      if !readFails && PostsKey in entries {
        posts := entries[PostsKey];
      }
    }

    /** `addPost(post)`: the newest post goes first. */
    method AddPost(post: Value, readFails: bool, writeFails: bool)
      modifies this
      ensures entries == Added(old(entries), PostsKey, post, readFails, writeFails)
    {
      var posts := GetPosts(readFails);
      if posts.Arr? {
        SavePosts(Arr([post] + posts.items), writeFails);
      }
    }

    /** `saveConsultations(consultations)`: overwrites the whole list. */
    method SaveConsultations(consultations: Value, writeFails: bool)
      modifies this
      ensures entries == Written(old(entries), ConsultationsKey, consultations, writeFails)
    {
      if !writeFails {
        entries := entries[ConsultationsKey := consultations];
      }
    }

    /** `getConsultations()`: the saved list, or the empty list. */
    method GetConsultations(readFails: bool) returns (consultations: Value)
      ensures consultations == Fetched(entries, ConsultationsKey, Arr([]), readFails)
    {
      consultations := Arr([]);
      if !readFails && ConsultationsKey in entries {
        consultations := entries[ConsultationsKey];
      }
    }

    /** `addConsultation(consultation)`: the newest consultation goes first. */
    method AddConsultation(consultation: Value, readFails: bool, writeFails: bool)
      modifies this
      ensures entries == Added(old(entries), ConsultationsKey, consultation, readFails, writeFails)
    {
      var consultations := GetConsultations(readFails);
      if consultations.Arr? {
        SaveConsultations(Arr([consultation] + consultations.items), writeFails);
      }
    }
  }
}

/** What the store's helpers promise, as facts about the entries they leave. */
module StorageFacts {
  import opened Js
  import opened Storage

  /** The three helpers' keys are distinct, so each list and the user live in
      separate entries. */
  lemma KeysDistinct()
    ensures UserKey != PostsKey && PostsKey != ConsultationsKey && ConsultationsKey != UserKey
  {
    assert UserKey[0] != PostsKey[0] && PostsKey[0] != ConsultationsKey[0] && ConsultationsKey[0] != UserKey[0];
  }

  /** A saved value is what the getter returns next (`saveUser` then
      `getUser`, `savePosts` then `getPosts`, ...). */
  lemma SaveThenGet(entries: map<string, Value>, key: string, v: Value, fallback: Value)
    ensures Fetched(Written(entries, key, v, false), key, fallback, false) == v
  {
  }

  /** After `removeUser`, `getUser` returns null. */
  lemma RemoveThenGet(entries: map<string, Value>, key: string, fallback: Value)
    ensures Fetched(Removed(entries, key, false), key, fallback, false) == fallback
  {
  }

  /** A save replaces what was there: the earlier save leaves no trace. */
  lemma SaveOverwrites(entries: map<string, Value>, key: string, a: Value, b: Value)
    ensures Written(Written(entries, key, a, false), key, b, false) == Written(entries, key, b, false)
  {
  }

  /** Each operation touches its own key and no other; a failed operation
      touches nothing. */
  lemma OwnKeyOnly(entries: map<string, Value>, key: string, v: Value, readFails: bool, writeFails: bool)
    ensures Written(entries, key, v, writeFails) - {key} == entries - {key}
    ensures Removed(entries, key, writeFails) - {key} == entries - {key}
    ensures Added(entries, key, v, readFails, writeFails) - {key} == entries - {key}
    ensures Written(entries, key, v, true) == entries && Removed(entries, key, true) == entries
  {
  }

  /** Hence every getter of another key reads the same before and after. */
  lemma OtherKeysRead(entries: map<string, Value>, key: string, other: string, v: Value,
                      fallback: Value, readFails: bool, writeFails: bool, otherFails: bool)
    requires other != key
    ensures Fetched(Written(entries, key, v, writeFails), other, fallback, otherFails) == Fetched(entries, other, fallback, otherFails)
    ensures Fetched(Removed(entries, key, writeFails), other, fallback, otherFails) == Fetched(entries, other, fallback, otherFails)
    ensures Fetched(Added(entries, key, v, readFails, writeFails), other, fallback, otherFails) == Fetched(entries, other, fallback, otherFails)
  {
    OwnKeyOnly(entries, key, v, readFails, writeFails);
    assert forall m: map<string, Value> :: m - {key} == entries - {key} ==> ((other in m) == (other in entries)) && (other in m ==> m[other] == entries[other]) by {
      forall m: map<string, Value> | m - {key} == entries - {key}
        ensures (other in m) == (other in entries) && (other in m ==> m[other] == entries[other])
      {
        assert (other in m) == (other in m - {key});
        assert (other in entries) == (other in entries - {key});
        if other in m {
          assert m[other] == (m - {key})[other];
        }
      }
    }
  }

  /** An add puts the new item in front of the list the getter returned and
      keeps the rest in order; when nothing was stored that list is empty, so
      the first add stores a one-element list. */
  lemma AddPrepends(entries: map<string, Value>, key: string, item: Value, items: seq<Value>)
    requires Fetched(entries, key, Arr([]), false) == Arr(items)
    ensures Fetched(Added(entries, key, item, false, false), key, Arr([]), false) == Arr([item] + items)
  {
  }

  /** When the read fails and the write succeeds, the add stores a list of
      the new item alone: whatever list was stored is replaced. */
  lemma AddAfterFailedRead(entries: map<string, Value>, key: string, item: Value)
    ensures Added(entries, key, item, true, false) == entries[key := Arr([item])]
  {
    assert [item] + [] == [item];
  }

  /** When the stored value is not a list, `unshift` throws and the add
      changes nothing, silently. */
  lemma AddToNonList(entries: map<string, Value>, key: string, item: Value, writeFails: bool)
    requires key in entries && !entries[key].Arr?
    ensures Added(entries, key, item, false, writeFails) == entries
  {
  }

  function Reversed(s: seq<Value>): (r: seq<Value>)
  {
    if s == [] then [] else Reversed(s[1..]) + [s[0]]
  }

  /** Successive adds of `items[0]`, `items[1]`, ... with every call
      succeeding. */
  function AddedAll(entries: map<string, Value>, key: string, items: seq<Value>): map<string, Value>
    decreases items
  {
    if items == [] then entries
    else AddedAll(Added(entries, key, items[0], false, false), key, items[1..])
  }

  /** The list is kept newest first: after a run of adds it holds the added
      items in reverse order of adding, in front of what it held before. */
  lemma {:induction false} AddedAllNewestFirst(entries: map<string, Value>, key: string, items: seq<Value>, before: seq<Value>)
    requires Fetched(entries, key, Arr([]), false) == Arr(before)
    ensures Fetched(AddedAll(entries, key, items), key, Arr([]), false) == Arr(Reversed(items) + before)
    decreases items
  {
    if items != [] {
      AddPrepends(entries, key, items[0], before);
      AddedAllNewestFirst(Added(entries, key, items[0], false, false), key, items[1..], [items[0]] + before);
      assert Reversed(items[1..]) + ([items[0]] + before) == Reversed(items) + before;
    }
  }
}
