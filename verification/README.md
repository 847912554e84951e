# Fretboard diagrams and the note table

A model of the core of anki-fretboard-generator, a tool that draws a guitar
fretboard with one highlighted fret/string position and pairs it with the note
sounded there, for flashcards.

- `fretboard.dfy` (module `Fretboard`) models `generate_fretboard.py`. The two
  position calculators are datatypes with pure functions. `fret(n)` is the
  closed form `w·(1 − rⁿ)/(1 − r)` of the geometric series of fret widths.
  `marker(n)` is the midpoint of frets `n − 1` and `n`. `string(i)` is
  `i·h + h/2` and `neck_height` is `h·count`. The three `for` loops of
  `generate_fretboard_svg` are methods. Each appends to a sequence under a loop
  invariant tying the sequence to a recursive specification function. The SVG
  document is a structured value: its size, the neck rectangle, and four layer
  groups (markers, frets, strings, highlight) holding lines and circles.
- `notes.dfy` (module `Notes`) models `notes.py`: the twelve-note table, id
  lookup with its `ValueError`, and transposition by semitones around the
  cycle.
- `wrappers.dfy` (module `Wrappers`) holds `Option` (Python's `None`) and
  `Result` (a value or a raised exception).

Coordinates are exact reals. The ratio between consecutive fret widths,
`1 / 2 ** (1/12)` in the source, is the abstract constant
`Fretboard.FretMultiplier`, known only to lie strictly between 0 and 1.
Python's `x ** n` for an integer `n`, including negative `n`, is
`Fretboard.IntPow`.

Three behaviours of the code worth knowing:

- String 0 gets the smallest y, so it is drawn at the top. The code does not
  reverse string indices (`generate_fretboard.py:29`).
- A highlight at fret 0 is not treated specially. `marker(0)` averages
  `fret(-1) = −w/r` and the nut, so the red circle is centred left of the
  picture. No string line is recoloured. `Fretboard.MarkerAtNut` and
  `Fretboard.OpenStringHighlightHidden` state this.
- The renderer does not validate its inputs: any fret count, any widths and any
  highlight position produce a picture. The lemmas say what the picture is for
  every input. For example, `Fretboard.HighlightPlacement` says when the
  highlight lands inside the picture.

## Model

| member | source | states |
|---|---|---|
| Fretboard.HorizontalPositionCalculator.Fret | generate_fretboard.py:5-16 | definition of `fret`: w·(1 − rⁿ)/(1 − r); its properties are FretAtNut, FretGap, FretGapRatio, FretIncreasing, FretBounded, FretOctave and FretOctaveHalf |
| Fretboard.HorizontalPositionCalculator.Marker | generate_fretboard.py:18-20 | definition of `marker`: the mean of frets n − 1 and n; its properties are MarkerBetween, MarkerAtNut and MarkerWithinNeck |
| Fretboard.VerticalPositionCalculator.String | generate_fretboard.py:28-29 | definition of `string`: i·h + h/2; its properties are StringSpacing and StringWithinNeck |
| Fretboard.VerticalPositionCalculator.NeckHeight | generate_fretboard.py:31-32 | definition of `neck_height`: h·count; StringWithinNeck and DiagramLayout relate it to the strings and the picture |
| Fretboard.InlayOf | generate_fretboard.py:101-102 | definition of the inlay test on i % 12; its properties are InlayPeriodic and InlayFirstTwoOctaves |
| Fretboard.StringLines | generate_fretboard.py:86-91 | the string layer has one line per stroke width; StringLinesAt gives each line |
| Fretboard.FretLines | generate_fretboard.py:93-96 | the fret layer has max(n − 1, 0) lines; FretLinesAt and FretLinesOrdered give their positions and order |
| Fretboard.InlayDots | generate_fretboard.py:98-111 | the marker layer has as many circles as the inlay rule asks for on frets 1..n − 1; InlayDotsFrets, InlayDotsInside and InlayDotsOctaves say which and where |
| Fretboard.HighlightLayer | generate_fretboard.py:113-117 | the highlight layer holds one red circle of radius 7.5 iff a position is given |
| Fretboard.Diagram | generate_fretboard.py:80-127 | definition of the whole picture; its properties are DiagramLayout, HighlightPlacement and DefaultDiagram, and GenerateFretboardSvg is proved to build it |
| Fretboard.IntPow | generate_fretboard.py:15 | `x ** n` of a positive base is positive for every integer exponent, negative ones included |
| Fretboard.IntPowStep | generate_fretboard.py:15 | raising the exponent by one multiplies by the base, for negative exponents too |
| Fretboard.FretAtNut | generate_fretboard.py:14-16 | fret 0 is at x = 0 and fret 1 is one first-fret width further |
| Fretboard.FretGap | generate_fretboard.py:11-16 | the width between frets n and n + 1 is w·rⁿ, for every integer n |
| Fretboard.FretGapRatio | generate_fretboard.py:11-16 | every fret width is r times the width before it |
| Fretboard.FretIncreasing | generate_fretboard.py:14-16 | with w > 0, fret positions strictly increase over all integer fret numbers |
| Fretboard.FretBounded | generate_fretboard.py:13-16 | from the nut on, every fret lies in [0, w/(1 − r)), the limit of the series |
| Fretboard.FretOctave | generate_fretboard.py:10-16 | each fret is r¹² times as wide as the one an octave lower |
| Fretboard.FretOctaveHalf | generate_fretboard.py:10-16 | if r¹² = 1/2, fret 12 is half the scale limit w/(1 − r) |
| Fretboard.MarkerBetween | generate_fretboard.py:18-20 | with w > 0, marker n lies strictly between frets n − 1 and n, equally far from both |
| Fretboard.MarkerAtNut | generate_fretboard.py:18-20 | fret −1 is at −w/r, so marker 0 is at −w/(2r), left of the nut |
| Fretboard.StringSpacing | generate_fretboard.py:28-29 | strings are one string height apart and y increases with the string number |
| Fretboard.StringWithinNeck | generate_fretboard.py:28-32 | string i is strictly inside the neck iff 0 ≤ i < count, and then within [h/2, neck_height − h/2] |
| Fretboard.StringLinesAt | generate_fretboard.py:86-91 | one line per stroke width, in order: line k runs from x = 0 to the total width at string(k), with the k-th stroke width |
| Fretboard.FretLinesAt | generate_fretboard.py:93-96 | the fret layer has max(fretCount − 1, 0) lines; line k is at fret(k + 1) and spans y from 0 to neck_height |
| Fretboard.FretLinesOrdered | generate_fretboard.py:93-96 | with w > 0, fret lines go strictly left to right, none at the nut and none at the last boundary |
| Fretboard.InlayPeriodic | generate_fretboard.py:101-102 | the inlay rule repeats every 12 frets, so it continues past fret 24 |
| Fretboard.InlayFirstTwoOctaves | generate_fretboard.py:101-102 | on frets 1..24, single dots are at 3, 5, 7, 9, 15, 17, 19, 21 and double dots at 12 and 24 |
| Fretboard.InlayDotsFrets | generate_fretboard.py:98-111 | the marker layer holds exactly the dots of frets 1..fretCount − 1 |
| Fretboard.InlayDotsCount | generate_fretboard.py:98-111 | the marker layer has one circle per single-dot fret and two per double-dot fret |
| Fretboard.InlayCountOctave | generate_fretboard.py:98-111 | twelve more frets add exactly six circles |
| Fretboard.InlayCountOctaves | generate_fretboard.py:98-111 | frets 1..12m carry 6m circles |
| Fretboard.InlayDotsOctaves | generate_fretboard.py:98-111 | a 12m + 1 fret picture has 6m marker circles; 13 frets give 6 |
| Fretboard.InlayCountDefault | generate_fretboard.py:98-111 | the default 21 frets carry nine marker circles |
| Fretboard.InlayDotsInside | generate_fretboard.py:98-111 | every marker is a white circle of radius 5 strictly inside the neck, and markers come left to right |
| Fretboard.MarkerWithinNeck | generate_fretboard.py:113-117 | with w > 0, marker f lies strictly inside a fretCount-fret picture iff 1 ≤ f ≤ fretCount |
| Fretboard.OpenStringHighlightHidden | generate_fretboard.py:113-117 | with a first fret of at least 15, a fret-0 highlight circle lies wholly left of the picture |
| Fretboard.DiagramLayout | generate_fretboard.py:80-127 | size is fret(fretCount) by neck_height; the neck fills it; layers are markers, frets, strings, highlight; the highlight layer holds one circle iff a position is given |
| Fretboard.HighlightPlacement | generate_fretboard.py:113-117 | the highlight is a red circle of radius 7.5, centred inside the picture iff 1 ≤ fret ≤ fretCount and the string exists |
| Fretboard.DefaultDiagram | generate_fretboard.py:35-41 | the default picture is 80 high with 9 marker circles, 20 fret lines, 4 strings and the highlight inside at y = 50 |
| Fretboard.DrawStrings | generate_fretboard.py:86-91 | the string loop builds exactly the string layer |
| Fretboard.DrawFrets | generate_fretboard.py:93-96 | the fret loop builds exactly the fret layer, also for fretCount ≤ 1 |
| Fretboard.DrawMarkers | generate_fretboard.py:98-111 | the marker loop, with its single/double test on i % 12, builds exactly the marker layer |
| Fretboard.GenerateFretboardSvg | generate_fretboard.py:35-127 | for every argument (the defaults are the source's), the renderer returns the picture `Diagram` describes |
| Notes.Note.Label | notes.py:6-7 | definition of `label`: the names joined with "/"; its properties are SplitJoin and LabelOfSharp |
| Notes.Note.MatchesId | notes.py:15-16 | definition of `matches_id`: membership in the id set; FirstMatch, GetNoteIn and MatchIsUnique state what it selects |
| Notes.NoteTable | notes.py:19-32 | definition of the `notes` table; its properties are TableShape, KnownIdsAreTableIds, MatchIsUnique and NoteTableWellFormed |
| Notes.AddSemitonesIn | notes.py:42-45 | definition of `add_semitones` over a given table; its properties are AddSemitonesInPicksAnId, AddSemitonesInWellFormed, AddSemitonesInOctave and AddSemitonesInCompose |
| Notes.AddSemitones | notes.py:42-45 | definition of `add_semitones` on the note table; its properties are AddSemitonesTableNote, AddSemitonesOctave, AddSemitonesCompose and AddSemitonesAnyId |
| Notes.SplitJoin | notes.py:6-7 | joining names without a "/" and splitting on "/" gives the names back, so a label determines its names |
| Notes.LabelOfSharp | notes.py:19-21 | the label of C is "C" and the label of the second note is "C♯/D♭" |
| Notes.TableShape | notes.py:19-32 | the table has 12 notes with non-empty, pairwise disjoint id sets |
| Notes.KnownIdsAreTableIds | notes.py:19-32 | the 17 known ids are exactly the ids some table note matches |
| Notes.MatchIsUnique | notes.py:15-32 | an id matches at most one table note |
| Notes.NoteTableWellFormed | notes.py:19-32 | the table is well formed: non-empty id sets, each id in at most one note |
| Notes.FirstMatch | notes.py:36-38 | the search yields the first index whose note matches the id, or nothing when none does |
| Notes.GetNoteIn | notes.py:35-39 | lookup succeeds iff some note matches, with the first matching note; otherwise ValueError("Note with id '…' not found.") |
| Notes.GetNoteById | notes.py:35-39 | lookup in the table succeeds iff the id is one of the 17 known ids, with a note matching it; otherwise the ValueError |
| Notes.IndexOf | notes.py:44 | `notes.index(note)` is the first position holding the note |
| Notes.LookupIn | notes.py:35-44 | in a well-formed table, looking up any id of note i gives note i, at index i |
| Notes.TransposeIn | notes.py:43-45 | transposing from an id succeeds iff the lookup does, with a table note; otherwise it raises the lookup's error |
| Notes.TransposeInWellFormed | notes.py:43-45 | in any well-formed table, from any id of note i the result is note (i + k) mod the table size |
| Notes.AddSemitonesInPicksAnId | notes.py:43 | a note with no ids raises StopIteration; otherwise the result is the transposition from one of its ids |
| Notes.AddSemitonesInWellFormed | notes.py:42-45 | in a well-formed table, note i moved k semitones is note (i + k) mod size, whichever id is picked |
| Notes.AddSemitonesTableNote | notes.py:42-45 | a table note moved k semitones is table note (i + k) mod 12, also for negative k |
| Notes.AddSemitonesInOctave | notes.py:45 | in any well-formed 12-note table, whole octaves give the note back |
| Notes.AddSemitonesInCompose | notes.py:45 | in any well-formed 12-note table, moving by a then b is moving by a + b |
| Notes.AddSemitonesOctave | notes.py:45 | moving by 0 or by 12m semitones gives the note back |
| Notes.AddSemitonesCompose | notes.py:45 | moving by a and then by b is moving by a + b |
| Notes.AddSemitonesAnyId | notes.py:43 | the result does not depend on which id `next(iter(note.ids))` yields |

## Left out

- Floating point: coordinates are exact reals. The rounding of `2 ** (1/12)` and of every product is not modelled. A float overflow for extreme fret numbers is not modelled either.
- Fretboard.FretOctaveHalf: the halving per octave is stated under the hypothesis r¹² = 1/2. The model knows only 0 < r < 1 about the ratio, so the hypothesis is not proved.
- The SVG text: template formatting, number-to-decimal printing and whitespace (`generate_fretboard.py:46-78`). The model builds a structured `Svg` value instead. The values it carries are the ones the templates print: sizes, ids, coordinates, stroke colours and widths, radii and fills.
- The truthiness test on `highlight_position` is modelled as `Option`. `None` and an empty tuple are both `None`. Entries of the tuple after the second are ignored, as in the source.
- generate_anki.py is not part of this model. It is deck and package plumbing around a foreign library, temporary files and file writes.
- main.py is not part of this model. It is the command-line interface, float parsing and a random deck id. Its validations (positive widths, one width per tuned string, a positive fret count) are not preconditions here, because the renderer itself accepts every input.
- `__str__`, `__repr__` and the `__main__` blocks.
- Notes.AddSemitones: `next(iter(note.ids))` depends on Python's set iteration order, which is not modelled. It is a ghost choice of some id of the note, so add_semitones is a ghost function. Notes.AddSemitonesAnyId shows that the choice never matters for table notes.
- Notes.IndexOf: `notes.index` compares by object identity, because `Note` defines no equality. The model compares by value. The twelve table notes are distinct values, so the index is the same.
- Notes.Split exists only to state that Join can be inverted; notes.py does not split labels.
