/**
 * The twelve-note table of notes.py: each note has a set of ids that users
 * type ("C#", "Db") and a list of display names ("C♯", "D♭"); lookup by id,
 * and transposition by a number of semitones around the cycle.
 */
module Notes {
  import opened Wrappers

  /** The errors notes.py raises. */
  datatype Error =
    | ValueError(message: string)  // get_note_by_id on an unknown id
    | StopIteration                // next(iter(ids)) on a note with no ids

  datatype Note = Note(ids: set<string>, names: seq<string>)
  {
    /** The display label: the names joined with "/". */
    function Label(): string {
      Join(names, "/")
    }

    predicate MatchesId(id: string) {
      id in ids
    }
  }

  /** Python's `sep.join(parts)`. */
  function Join(parts: seq<string>, sep: string): string {
    if |parts| == 0 then ""
    else if |parts| == 1 then parts[0]
    else parts[0] + sep + Join(parts[1..], sep)
  }

  /** Python's `s.split(sep)` for a one-character separator; the inverse of Join. */
  function Split(s: string, sep: char): (r: seq<string>)
    ensures |r| >= 1
  {
    if |s| == 0 then [""]
    else
      var rest := Split(s[1..], sep);
      if s[0] == sep then [""] + rest
      else [[s[0]] + rest[0]] + rest[1..]
  }

  /** A piece with no separator in it splits to itself. */
  lemma {:induction false} SplitNoSeparator(p: string, sep: char)
    requires sep !in p
    ensures Split(p, sep) == [p]
  {
    if |p| > 0 {
      SplitNoSeparator(p[1..], sep);
      assert [p[0]] + p[1..] == p;
    }
  }

  /** Splitting stops at the first separator. */
  lemma {:induction false} SplitAtFirstSeparator(p: string, sep: char, t: string)
    requires sep !in p
    ensures Split(p + [sep] + t, sep) == [p] + Split(t, sep)
  {
    if |p| == 0 {
      assert p + [sep] + t == [sep] + t;
      assert ([sep] + t)[1..] == t;
    } else {
      SplitAtFirstSeparator(p[1..], sep, t);
      assert (p + [sep] + t)[1..] == p[1..] + [sep] + t;
      assert [p[0]] + p[1..] == p;
    }
  }

  /** Joining names that hold no separator and splitting the result gives the names back. */
  lemma {:induction false} SplitJoin(parts: seq<string>, sep: char)
    requires |parts| >= 1
    requires forall i :: 0 <= i < |parts| ==> sep !in parts[i]
    ensures Split(Join(parts, [sep]), sep) == parts
  {
    if |parts| == 1 {
      SplitNoSeparator(parts[0], sep);
    } else {
      SplitJoin(parts[1..], sep);
      SplitAtFirstSeparator(parts[0], sep, Join(parts[1..], [sep]));
      assert [parts[0]] + parts[1..] == parts;
    }
  }

  /** The note table, in chromatic order from C. */
  const NoteTable: seq<Note> := [
    Note({"C"}, ["C"]),
    Note({"C#", "Db"}, ["C♯", "D♭"]),
    Note({"D"}, ["D"]),
    Note({"D#", "Eb"}, ["D♯", "E♭"]),
    Note({"E"}, ["E"]),
    Note({"F"}, ["F"]),
    Note({"F#", "Gb"}, ["F♯", "G♭"]),
    Note({"G"}, ["G"]),
    Note({"G#", "Ab"}, ["G♯", "A♭"]),
    Note({"A"}, ["A"]),
    Note({"A#", "Bb"}, ["A♯", "B♭"]),
    Note({"B"}, ["B"])
  ]

  /** Every id the table knows. */
  const KnownIds: set<string> :=
    {"C", "C#", "Db", "D", "D#", "Eb", "E", "F", "F#", "Gb", "G", "G#", "Ab", "A", "A#", "Bb", "B"}

  /** The table has twelve notes whose id sets are non-empty, pairwise disjoint and cover KnownIds. */
  lemma TableShape()
    ensures |NoteTable| == 12
    ensures forall i :: 0 <= i < 12 ==> NoteTable[i].ids != {}
    ensures forall i, j :: 0 <= i < j < 12 ==> NoteTable[i].ids !! NoteTable[j].ids
  {
  }

  /** KnownIds is exactly the union of the table's id sets. */
  lemma KnownIdsAreTableIds(id: string)
    ensures id in KnownIds <==> exists i :: 0 <= i < |NoteTable| && NoteTable[i].MatchesId(id)
  {
    if id in KnownIds {
      var i :=
        if id == "C" then 0 else if id in {"C#", "Db"} then 1 else if id == "D" then 2
        else if id in {"D#", "Eb"} then 3 else if id == "E" then 4 else if id == "F" then 5
        else if id in {"F#", "Gb"} then 6 else if id == "G" then 7 else if id in {"G#", "Ab"} then 8
        else if id == "A" then 9 else if id in {"A#", "Bb"} then 10 else 11;
      assert NoteTable[i].MatchesId(id);
    }
  }

  /** Any id matches at most one note of the table. */
  lemma MatchIsUnique(id: string, i: int, j: int)
    requires 0 <= i < |NoteTable| && 0 <= j < |NoteTable|
    requires NoteTable[i].MatchesId(id) && NoteTable[j].MatchesId(id)
    ensures i == j
  {
    TableShape();
  }

  /** The label of a two-name note, as shown on the card's back. */
  lemma LabelOfSharp()
    ensures NoteTable[1].Label() == "C♯/D♭"
    ensures NoteTable[0].Label() == "C"
  {
  }

  /** Every note of `table` has an id, and no id belongs to two notes. */
  ghost predicate WellFormed(table: seq<Note>) {
    && (forall i :: 0 <= i < |table| ==> table[i].ids != {})
    && (forall i, j, id :: 0 <= i < |table| && 0 <= j < |table| && id in table[i].ids && id in table[j].ids ==> i == j)
  }

  lemma NoteTableWellFormed()
    ensures WellFormed(NoteTable) && |NoteTable| == 12
  {
    TableShape();
    forall i, j, id | 0 <= i < |NoteTable| && 0 <= j < |NoteTable| && id in NoteTable[i].ids && id in NoteTable[j].ids
      ensures i == j
    {
      MatchIsUnique(id, i, j);
    }
  }

  /** The first position in `table` whose note matches `id`: the loop of get_note_by_id. */
  function FirstMatch(table: seq<Note>, id: string): (r: Option<nat>)
    ensures r.Some? ==> r.value < |table| && table[r.value].MatchesId(id)
    ensures r.Some? ==> forall j :: 0 <= j < r.value ==> !table[j].MatchesId(id)
    ensures r.None? ==> forall j :: 0 <= j < |table| ==> !table[j].MatchesId(id)
  {
    if |table| == 0 then None
    else if table[0].MatchesId(id) then Some(0)
    else match FirstMatch(table[1..], id)
      case None => None
      case Some(k) => Some(k + 1)
  }

  /** get_note_by_id over a given table: the first note with `id` among its ids, or a ValueError. */
  function GetNoteIn(table: seq<Note>, id: string): (r: Result<Note, Error>)
    ensures r.Success? <==> exists i :: 0 <= i < |table| && table[i].MatchesId(id)
    ensures r.Success? ==> exists i :: 0 <= i < |table| && r.value == table[i] && r.value.MatchesId(id)
                                         && forall j :: 0 <= j < i ==> !table[j].MatchesId(id)
    ensures r.Failure? ==> r.error == ValueError("Note with id '" + id + "' not found.")
  {
    match FirstMatch(table, id)
    case Some(i) => Success(table[i])
    case None => Failure(ValueError("Note with id '" + id + "' not found."))
  }

  /** get_note_by_id: succeeds exactly for the seventeen ids the table knows. */
  function GetNoteById(id: string): (r: Result<Note, Error>)
    ensures r.Success? <==> id in KnownIds
    ensures r.Success? ==> r.value.MatchesId(id)
    ensures r.Failure? ==> r.error == ValueError("Note with id '" + id + "' not found.")
  {
    KnownIdsAreTableIds(id);
    GetNoteIn(NoteTable, id)
  }

  /** Python's `list.index`: the first position holding `x`. */
  function IndexOf(s: seq<Note>, x: Note): (r: nat)
    requires x in s
    ensures r < |s| && s[r] == x
    ensures forall j :: 0 <= j < r ==> s[j] != x
  {
    if s[0] == x then 0 else 1 + IndexOf(s[1..], x)
  }

  /** In a well-formed table an id finds the one note that holds it, and that note's index is its position. */
  lemma LookupIn(table: seq<Note>, id: string, i: int)
    requires WellFormed(table)
    requires 0 <= i < |table| && table[i].MatchesId(id)
    ensures GetNoteIn(table, id) == Success(table[i])
    ensures IndexOf(table, table[i]) == i
  {
    assert FirstMatch(table, id).Some?;
  }

  /** Looks the note up by `id`, then steps `semitones` places around the table from its index. */
  function TransposeIn(table: seq<Note>, id: string, semitones: int): (r: Result<Note, Error>)
    requires |table| > 0
    ensures r.Success? <==> GetNoteIn(table, id).Success?
    ensures r.Success? ==> exists i :: 0 <= i < |table| && r.value == table[i]
    ensures r.Failure? ==> r == GetNoteIn(table, id)
  {
    match GetNoteIn(table, id)
    case Failure(e) => Failure(e)
    case Success(note) =>
      var index := IndexOf(table, note);
      Success(table[(index + semitones) % |table|])
  }

  /** In a well-formed table, transposing from any id of the note at position i lands at position i + semitones, cyclically. */
  lemma TransposeInWellFormed(table: seq<Note>, i: int, id: string, semitones: int)
    requires WellFormed(table)
    requires 0 <= i < |table| && table[i].MatchesId(id)
    ensures TransposeIn(table, id, semitones) == Success(table[(i + semitones) % |table|])
  {
    LookupIn(table, id, i);
  }

  /**
   * add_semitones over a given table: look the note up again by some id of its
   * (`next(iter(note.ids))`, whichever one Python's set iteration yields first)
   * and step around the table.
   */
  ghost function AddSemitonesIn(table: seq<Note>, note: Note, semitones: int): Result<Note, Error>
    requires |table| > 0
  {
    if note.ids == {} then Failure(StopIteration)
    else
      var id :| id in note.ids;
      TransposeIn(table, id, semitones)
  }

  /** add_semitones raises StopIteration on a note without ids, and otherwise transposes from one of its ids. */
  lemma AddSemitonesInPicksAnId(table: seq<Note>, note: Note, semitones: int)
    requires |table| > 0
    ensures note.ids == {} ==> AddSemitonesIn(table, note, semitones) == Failure(StopIteration)
    ensures note.ids != {} ==> exists id :: id in note.ids && AddSemitonesIn(table, note, semitones) == TransposeIn(table, id, semitones)
  {
  }

  /** add_semitones on the note table of notes.py. */
  ghost function AddSemitones(note: Note, semitones: int): Result<Note, Error> {
    AddSemitonesIn(NoteTable, note, semitones)
  }

  /** On a note of a well-formed table, the result does not depend on which id is picked. */
  lemma AddSemitonesInWellFormed(table: seq<Note>, i: int, semitones: int)
    requires WellFormed(table)
    requires 0 <= i < |table|
    ensures AddSemitonesIn(table, table[i], semitones) == Success(table[(i + semitones) % |table|])
  {
    AddSemitonesInPicksAnId(table, table[i], semitones);
    var id :| id in table[i].ids && AddSemitonesIn(table, table[i], semitones) == TransposeIn(table, id, semitones);
    TransposeInWellFormed(table, i, id, semitones);
  }

  /** add_semitones on a table note always succeeds with the table note `semitones` steps on, for any (also negative) count. */
  lemma AddSemitonesTableNote(i: int, semitones: int)
    requires 0 <= i < |NoteTable|
    ensures AddSemitones(NoteTable[i], semitones) == Success(NoteTable[(i + semitones) % 12])
  {
    NoteTableWellFormed();
    AddSemitonesInWellFormed(NoteTable, i, semitones);
  }

  /** In a twelve-note table, transposing by whole octaves gives the note back. */
  lemma AddSemitonesInOctave(table: seq<Note>, i: int, octaves: int)
    requires WellFormed(table) && |table| == 12
    requires 0 <= i < |table|
    ensures AddSemitonesIn(table, table[i], 12 * octaves) == Success(table[i])
  {
    var k := 12 * octaves;
    assert (i + k) % 12 == i;
    AddSemitonesInWellFormed(table, i, k);
  }

  /** In a twelve-note table, transposing by a and then by b is transposing by a + b. */
  lemma AddSemitonesInCompose(table: seq<Note>, i: int, a: int, b: int)
    requires WellFormed(table) && |table| == 12
    requires 0 <= i < |table|
    ensures AddSemitonesIn(table, table[i], a).Success?
    ensures AddSemitonesIn(table, AddSemitonesIn(table, table[i], a).value, b) == AddSemitonesIn(table, table[i], a + b)
  {
    var j := (i + a) % |table|;
    var k := (j + b) % |table|;
    assert k == (i + (a + b)) % |table| by { ModAddAssoc(i, a, b); }
    AddSemitonesInWellFormed(table, i, a);
    AddSemitonesInWellFormed(table, j, b);
    AddSemitonesInWellFormed(table, i, a + b);
  }

  lemma ModAddAssoc(i: int, a: int, b: int)
    ensures ((i + a) % 12 + b) % 12 == (i + a + b) % 12
  {
    var q := (i + a) / 12;
    assert i + a == 12 * q + (i + a) % 12;
    assert (i + a) % 12 + b == (i + a + b) - 12 * q;
  }

  /** add_semitones by zero, or by any whole number of octaves (also negative), gives the note back. */
  lemma AddSemitonesOctave(i: int, octaves: int)
    requires 0 <= i < |NoteTable|
    ensures AddSemitones(NoteTable[i], 12 * octaves) == Success(NoteTable[i])
    ensures AddSemitones(NoteTable[i], 0) == Success(NoteTable[i])
  {
    NoteTableWellFormed();
    AddSemitonesInOctave(NoteTable, i, octaves);
    AddSemitonesInOctave(NoteTable, i, 0);
  }

  /** add_semitones by a and then by b is add_semitones by a + b. */
  lemma AddSemitonesCompose(i: int, a: int, b: int)
    requires 0 <= i < |NoteTable|
    ensures AddSemitones(NoteTable[i], a).Success?
    ensures AddSemitones(AddSemitones(NoteTable[i], a).value, b) == AddSemitones(NoteTable[i], a + b)
  {
    NoteTableWellFormed();
    AddSemitonesInCompose(NoteTable, i, a, b);
  }

  /**
   * The result of add_semitones on a table note does not depend on which of its
   * ids `next(iter(note.ids))` yields: every id gives the same note.
   */
  lemma AddSemitonesAnyId(i: int, id: string, semitones: int)
    requires 0 <= i < |NoteTable| && id in NoteTable[i].ids
    ensures TransposeIn(NoteTable, id, semitones) == AddSemitones(NoteTable[i], semitones)
  {
    NoteTableWellFormed();
    TransposeInWellFormed(NoteTable, i, id, semitones);
    AddSemitonesInWellFormed(NoteTable, i, semitones);
  }
}
