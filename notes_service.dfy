/**
 * The in-memory notes store: notes keyed by id in a dictionary that remembers
 * insertion order, with create/read/update/delete, two queries and the
 * dictionary form a note is serialised to. Timestamps are whole seconds.
 */
module NotesService {
  import opened Wrappers
  import opened Text

  datatype Note = Note(
    id: string,
    bookId: string,
    cardIndex: int,
    cardTitle: string,
    noteText: string,
    createdAt: nat,
    updatedAt: nat)

  // ---- dictionary form ----

  /** The JSON values a note's dictionary holds. */
  datatype JsonValue = JStr(s: string) | JInt(i: int) | JNull

  /** Stand-in for `datetime.isoformat()`: the numeral of the timestamp. */
  function IsoFormat(t: nat): string
  {
    NatToString(t)
  }

  /** Stand-in for `datetime.fromisoformat()`: `None` where it raises. */
  function FromIsoFormat(s: string): Option<nat>
  {
    ParseNat(s)
  }

  /** `to_dict`. */
  function ToDict(n: Note): (d: map<string, JsonValue>)
    ensures d.Keys == {"id", "book_id", "card_index", "card_title", "note_text", "created_at", "updated_at"}
  {
    map[
      "id" := JStr(n.id),
      "book_id" := JStr(n.bookId),
      "card_index" := JInt(n.cardIndex),
      "card_title" := JStr(n.cardTitle),
      "note_text" := JStr(n.noteText),
      "created_at" := JStr(IsoFormat(n.createdAt)),
      "updated_at" := JStr(IsoFormat(n.updatedAt))]
  }

  function StringField(data: map<string, JsonValue>, key: string): Result<string, string>
  {
    if key !in data then Err("KeyError: " + key)
    else if !data[key].JStr? then Err("TypeError: " + key)
    else Ok(data[key].s)
  }

  /** A timestamp field: parsed when it holds a string, otherwise the current time. */
  function TimeField(data: map<string, JsonValue>, key: string, now: nat): Result<nat, string>
  {
    if key in data && data[key].JStr? then
      var t := FromIsoFormat(data[key].s);
      if t.Some? then Ok(t.value) else Err("ValueError: " + key)
    else Ok(now)
  }

  /** `from_dict`: a missing field or an unreadable timestamp is an error; a timestamp
      that is absent or not a string defaults to `now`. */
  function FromDict(data: map<string, JsonValue>, now: nat): (r: Result<Note, string>)
    ensures r.Ok? ==> "id" in data && data["id"] == JStr(r.value.id)
    ensures r.Ok? ==> "book_id" in data && data["book_id"] == JStr(r.value.bookId)
    ensures r.Ok? ==> "card_index" in data && data["card_index"] == JInt(r.value.cardIndex)
    ensures r.Ok? ==> "card_title" in data && data["card_title"] == JStr(r.value.cardTitle)
    ensures r.Ok? ==> "note_text" in data && data["note_text"] == JStr(r.value.noteText)
    ensures r.Ok? && ("created_at" !in data || !data["created_at"].JStr?) ==> r.value.createdAt == now
    ensures r.Ok? && ("updated_at" !in data || !data["updated_at"].JStr?) ==> r.value.updatedAt == now
    ensures ("id" !in data || "book_id" !in data || "card_index" !in data
             || "card_title" !in data || "note_text" !in data) ==> r.Err?
    ensures r.Ok? <==>
      && "id" in data && data["id"].JStr? && "book_id" in data && data["book_id"].JStr?
      && "card_index" in data && data["card_index"].JInt?
      && "card_title" in data && data["card_title"].JStr? && "note_text" in data && data["note_text"].JStr?
      && ("created_at" in data && data["created_at"].JStr? ==> FromIsoFormat(data["created_at"].s).Some?)
      && ("updated_at" in data && data["updated_at"].JStr? ==> FromIsoFormat(data["updated_at"].s).Some?)
    ensures r.Ok? && "created_at" in data && data["created_at"].JStr? ==>
      Some(r.value.createdAt) == FromIsoFormat(data["created_at"].s)
    ensures r.Ok? && "updated_at" in data && data["updated_at"].JStr? ==>
      Some(r.value.updatedAt) == FromIsoFormat(data["updated_at"].s)
  {
    var created := TimeField(data, "created_at", now);
    var updated := TimeField(data, "updated_at", now);
    var id := StringField(data, "id");
    var bookId := StringField(data, "book_id");
    var cardTitle := StringField(data, "card_title");
    var noteText := StringField(data, "note_text");
    if created.Err? then Err(created.error)
    else if updated.Err? then Err(updated.error)
    else if id.Err? then Err(id.error)
    else if bookId.Err? then Err(bookId.error)
    else if "card_index" !in data then Err("KeyError: card_index")
    else if !data["card_index"].JInt? then Err("TypeError: card_index")
    else if cardTitle.Err? then Err(cardTitle.error)
    else if noteText.Err? then Err(noteText.error)
    else Ok(Note(id.value, bookId.value, data["card_index"].i, cardTitle.value, noteText.value,
                 created.value, updated.value))
  }

  /** A note survives the trip through its dictionary form unchanged, timestamps included. */
  lemma DictRoundTrip(n: Note, now: nat)
    ensures FromDict(ToDict(n), now) == Ok(n)
  {
    NatToStringRoundTrip(n.createdAt);
    NatToStringRoundTrip(n.updatedAt);
  }

  // ---- queries as functions of the notes in insertion order ----

  /** `dict.values()` for the ids in insertion order. */
  function NotesInOrder(ids: seq<string>, m: map<string, Note>): (r: seq<Note>)
    requires forall i :: 0 <= i < |ids| ==> ids[i] in m
    ensures |r| == |ids|
    ensures forall i :: 0 <= i < |ids| ==> r[i] == m[ids[i]]
  {
    if ids == [] then [] else NotesInOrder(ids[..|ids| - 1], m) + [m[ids[|ids| - 1]]]
  }

  /** The comprehension of `get_notes_for_book`: the notes of one book. */
  function NotesOfBook(s: seq<Note>, bookId: string): (r: seq<Note>)
    ensures |r| <= |s|
    ensures forall n :: n in r <==> n in s && n.bookId == bookId
  {
    if s == [] then []
    else
      var rest := NotesOfBook(s[..|s| - 1], bookId);
      var last := s[|s| - 1];
      assert s == s[..|s| - 1] + [last];
      if last.bookId == bookId then rest + [last] else rest
  }

  /** Filtering keeps the relative order: the notes of a book from a concatenation are the
      notes from the first part followed by those from the second. */
  lemma {:induction false} NotesOfBookAppend(s: seq<Note>, t: seq<Note>, bookId: string)
    ensures NotesOfBook(s + t, bookId) == NotesOfBook(s, bookId) + NotesOfBook(t, bookId)
  {
    if t != [] {
      var u := s + t;
      assert u[..|u| - 1] == s + t[..|t| - 1];
      assert u[|u| - 1] == t[|t| - 1];
      NotesOfBookAppend(s, t[..|t| - 1], bookId);
    } else {
      assert s + t == s;
    }
  }

  predicate MatchesCard(n: Note, bookId: string, cardIndex: int)
  {
    n.bookId == bookId && n.cardIndex == cardIndex
  }

  /** Removes one id from the insertion order. */
  function WithoutId(ids: seq<string>, id: string): (r: seq<string>)
    ensures forall x :: x in r <==> x in ids && x != id
    ensures |r| <= |ids|
  {
    if ids == [] then []
    else
      var rest := WithoutId(ids[..|ids| - 1], id);
      assert ids == ids[..|ids| - 1] + [ids[|ids| - 1]];
      if ids[|ids| - 1] == id then rest else rest + [ids[|ids| - 1]]
  }

  predicate NoDuplicates(ids: seq<string>)
  {
    forall i, j :: 0 <= i < j < |ids| ==> ids[i] != ids[j]
  }

  lemma {:induction false} WithoutIdNoDuplicates(ids: seq<string>, id: string)
    requires NoDuplicates(ids)
    ensures NoDuplicates(WithoutId(ids, id))
  {
    if ids != [] {
      var init := ids[..|ids| - 1];
      WithoutIdNoDuplicates(init, id);
      var last := ids[|ids| - 1];
      forall i | 0 <= i < |init| ensures init[i] != last {
        assert init[i] == ids[i];
      }
      var rest := WithoutId(init, id);
      if last != id {
        assert last !in rest;
        var r := rest + [last];
        forall i, j | 0 <= i < j < |r| ensures r[i] != r[j] {
          if j == |r| - 1 {
            assert r[i] in rest;
          }
        }
      }
    }
  }

  /** The dictionary's contents and insertion order agree: each id once, the same ids in
      both, and every note stored under its own id. */
  ghost predicate ValidStore(notes: map<string, Note>, order: seq<string>)
  {
    && NoDuplicates(order)
    && (forall i :: 0 <= i < |order| ==> order[i] in notes)
    && (forall id :: id in notes ==> id in order)
    && (forall id :: id in notes ==> notes[id].id == id)
  }

  /** Storing a note under its id keeps the store consistent; a new id goes to the end. */
  lemma InsertKeepsValid(notes: map<string, Note>, order: seq<string>, note: Note)
    requires ValidStore(notes, order)
    ensures ValidStore(notes[note.id := note], if note.id in notes then order else order + [note.id])
  {
    if note.id !in notes {
      var o := order + [note.id];
      forall i, j | 0 <= i < j < |o| ensures o[i] != o[j] {
        if j == |order| {
          assert o[i] == order[i] && order[i] in notes;
        }
      }
    }
  }

  /** Appending a new id appends its note to the notes in order. */
  lemma NotesInOrderAppend(ids: seq<string>, m: map<string, Note>, id: string, n: Note)
    requires forall i :: 0 <= i < |ids| ==> ids[i] in m
    requires id !in ids
    ensures forall i :: 0 <= i < |ids + [id]| ==> (ids + [id])[i] in m[id := n]
    ensures NotesInOrder(ids + [id], m[id := n]) == NotesInOrder(ids, m) + [n]
  {
    var r := NotesInOrder(ids + [id], m[id := n]);
    var q := NotesInOrder(ids, m) + [n];
    forall i | 0 <= i < |ids| ensures r[i] == q[i] {
      assert (ids + [id])[i] == ids[i] != id;
    }
  }

  /** The notes in insertion order are exactly the stored notes. */
  lemma AllNotesAreStored(order: seq<string>, notes: map<string, Note>)
    requires ValidStore(notes, order)
    ensures forall n :: n in NotesInOrder(order, notes) <==> n in notes.Values
  {
    var all := NotesInOrder(order, notes);
    forall n | n in notes.Values ensures n in all {
      var id :| id in notes && notes[id] == n;
      var i :| 0 <= i < |order| && order[i] == id;
      assert all[i] == n;
    }
  }

  class NotesStore {
    /** `_notes`: the dictionary, split into its contents and its insertion order. */
    var notes: map<string, Note>
    var order: seq<string>

    ghost predicate Valid()
      reads this
    {
      ValidStore(notes, order)
    }

    constructor ()
      ensures Valid() && notes == map[] && order == []
    {
      notes := map[];
      order := [];
    }

    /** `get_all_notes`: every stored note once, in insertion order. */
    function AllNotes(): (r: seq<Note>)
      reads this
      requires Valid()
      ensures |r| == |order|
      ensures forall i :: 0 <= i < |r| ==> r[i] == notes[order[i]] && r[i].id == order[i]
      ensures forall n :: n in r <==> n in notes.Values
      ensures forall i, j :: 0 <= i < j < |r| ==> r[i].id != r[j].id
    {
      AllNotesAreStored(order, notes);
      NotesInOrder(order, notes)
    }

    /** `get_note`. */
    function GetNote(id: string): (r: Option<Note>)
      reads this
      requires Valid()
      ensures r.Some? <==> id in notes
      ensures r.Some? ==> r.value == notes[id] && r.value.id == id
    {
      if id in notes then Some(notes[id]) else None
    }

    /** `get_notes_for_book`: the notes of one book, in insertion order. */
    function NotesForBook(bookId: string): (r: seq<Note>)
      reads this
      requires Valid()
      ensures forall n :: n in r <==> n in notes.Values && n.bookId == bookId
    {
      NotesOfBook(AllNotes(), bookId)
    }

    /** `create_note`, with the generated id and the clock reading as parameters. A new id
        is appended to the insertion order; an id already present keeps its place. */
    method CreateNote(bookId: string, cardIndex: int, cardTitle: string, noteText: string,
                      freshId: string, now: nat) returns (note: Note)
      requires Valid()
      modifies this
      ensures Valid()
      ensures note == Note(freshId, bookId, cardIndex, cardTitle, noteText, now, now)
      ensures notes == old(notes)[freshId := note]
      ensures GetNote(freshId) == Some(note)
      ensures freshId !in old(notes) ==> order == old(order) + [freshId]
      ensures freshId !in old(notes) ==> AllNotes() == old(AllNotes()) + [note]
      ensures freshId in old(notes) ==> order == old(order)
    {
      note := Note(freshId, bookId, cardIndex, cardTitle, noteText, now, now);
      InsertKeepsValid(notes, order, note);
      if freshId !in notes {
        NotesInOrderAppend(order, notes, freshId, note);
        order := order + [freshId];
      }
      notes := notes[freshId := note];
    }

    /** `update_note`: changes the text and the update time of an existing note. */
    method UpdateNote(id: string, noteText: string, now: nat) returns (r: Option<Note>)
      requires Valid()
      modifies this
      ensures Valid()
      ensures order == old(order)
      ensures id in old(notes) ==>
        && r == Some(old(notes)[id].(noteText := noteText, updatedAt := now))
        && notes == old(notes)[id := r.value]
      ensures id !in old(notes) ==> r.None? && notes == old(notes)
    {
      if id in notes {
        var note := notes[id].(noteText := noteText, updatedAt := now);
        notes := notes[id := note];
        r := Some(note);
      } else {
        r := None;
      }
    }

    /** `delete_note`: reports whether the note was there; it is gone afterwards and every
        other note is untouched and keeps its order. */
    method DeleteNote(id: string) returns (found: bool)
      requires Valid()
      modifies this
      ensures Valid()
      ensures found <==> id in old(notes)
      ensures notes == old(notes) - {id}
      ensures order == WithoutId(old(order), id)
      ensures GetNote(id).None?
    {
      found := id in notes;
      if found {
        WithoutIdNoDuplicates(order, id);
        notes := notes - {id};
        order := WithoutId(order, id);
        forall i | 0 <= i < |order| ensures order[i] in notes {
          assert order[i] in order;
        }
      }
      else {
        assert id !in order;
        WithoutIdUnchanged(order, id);
      }
    }

    /** `get_note_for_card`: the first note in insertion order for this book and card. */
    method FindNoteForCard(bookId: string, cardIndex: int) returns (r: Option<Note>)
      requires Valid()
      ensures r.None? ==> forall i :: 0 <= i < |AllNotes()| ==> !MatchesCard(AllNotes()[i], bookId, cardIndex)
      ensures r.Some? ==> exists i :: (0 <= i < |AllNotes()| && AllNotes()[i] == r.value
        && MatchesCard(r.value, bookId, cardIndex)
        && forall j :: 0 <= j < i ==> !MatchesCard(AllNotes()[j], bookId, cardIndex))
    {
      var all := AllNotes();
      var i := 0;
      while i < |order|
        invariant 0 <= i <= |order|
        invariant forall j :: 0 <= j < i ==> !MatchesCard(all[j], bookId, cardIndex)
      {
        var note := notes[order[i]];
        if note.bookId == bookId && note.cardIndex == cardIndex {
          return Some(note);
        }
        i := i + 1;
      }
      r := None;
    }

    /** `clear_notes`. */
    method ClearNotes()
      requires Valid()
      modifies this
      ensures Valid()
      ensures notes == map[] && AllNotes() == []
    {
      notes := map[];
      order := [];
    }
  }

  lemma {:induction false} WithoutIdUnchanged(ids: seq<string>, id: string)
    requires id !in ids
    ensures WithoutId(ids, id) == ids
  {
    if ids != [] {
      assert ids == ids[..|ids| - 1] + [ids[|ids| - 1]];
      WithoutIdUnchanged(ids[..|ids| - 1], id);
    }
  }
}
