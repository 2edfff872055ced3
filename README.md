# Profile and recent-photos renderer

This project models `src/index.js`, a small HTML writer. It has two exported
operations. `renderPerson` writes a person's profile: the name, a thumbnail
placeholder, then the photo's title, date and location. `listeRecentPhotos`
keeps the photos dated strictly after 1 January 2019 and writes one
`<div>` block per kept photo. Each block holds the same three data lines.
Both operations write through `outStream.write` and return nothing.

The model has three modules:

- `Dates` (`dates.dfy`). A JavaScript `Date` becomes a `DateTime`: local year,
  month counted from 1, day, and milliseconds since local midnight. `Later` is
  the lexicographic order on those fields, which is what `>` on two dates
  compares.
- `Sinks` (`sink.dfy`). The output stream becomes a class `Sink`. Its only
  state is `trace`, the sequence of strings written so far. `Write` appends one
  string.
- `Render` (`render.dfy`). Pure functions give the exact lines each operation
  writes: `PhotoDataLines`, `PhotoBlock`, `PersonLines`, and `RecentListing`,
  which is built from `RecentPhotos` and `Blocks`. The four source functions
  are methods taking a `Sink`. Each method is proved to append exactly its
  function's lines to the old trace and to change nothing else. The lemmas
  state what those lines are: how many there are, their order, the cutoff edge
  case, the empty case, and the two test scenarios.

`Date.prototype.toDateString` is a host-library call. It enters the model as
the parameter `fmt: DateTime -> string` of every renderer that writes a date
(all but `RenderPhoto`), and nothing is assumed about it. The two test lemmas
take the value the test expects for 1 January 2020 as a precondition.

The source exports the list operation as `listeRecentPhotos`, with a typo. The
model calls it `ListRecentPhotos`.

## Model

| member | source | states |
|---|---|---|
| `Sinks.Sink.constructor` | src/index.test.js:8 | a fresh stream has received no writes |
| `Sinks.Sink.Write` | src/index.js:2 | one write appends exactly that string and leaves the earlier trace untouched |
| `Dates.Later` | src/index.js:9 | `>` on dates compares the fields lexicographically, year first: a later year (or, in the same year, a later month) is always later, an earlier one never is, and no instant is later than itself |
| `Dates.LaterTrichotomy` | src/index.js:9 | date comparison is a strict total order: exactly one of later, same instant, earlier holds |
| `Dates.LaterTransitive` | src/index.js:9 | date comparison is transitive |
| `Render.RecentDateCutoff` | src/index.js:23-25 | the cutoff `new Date(2019, 0, 1)` is local midnight `DateTime(2019, 1, 1, 0)`: a well-formed instant of 2019 that every other well-formed instant of 2019 is later than |
| `Render.IsRecent` | src/index.js:9 | the filter predicate is strict: the cutoff instant itself and every photo from before 2019 are rejected, every photo from 2020 on is selected |
| `Render.RecentPhotos` | src/index.js:8-9 | the filter keeps a photo iff it is in the input and dated strictly after the cutoff, and never grows the input |
| `Render.RecentIffNotOnOrBefore` | src/index.js:23-25 | a photo is selected iff it is neither dated exactly at 2019-01-01 00:00 nor earlier, so the cutoff instant itself is excluded |
| `Render.RecentPhotosConcat` | src/index.js:8-9 | filtering keeps input order: the survivors of a concatenation are the survivors of the first part followed by those of the second |
| `Render.Blocks` | src/index.js:10-14 | the `forEach` writes five lines per photo it visits |
| `Render.BlocksConcat` | src/index.js:10-14 | the blocks of a concatenation are the blocks of each part, in order |
| `Render.BlocksAt` | src/index.js:10-14 | lines 5k to 5k+4 of the output are exactly the block of the k-th photo visited |
| `Render.ListingLength` | src/index.js:10-14 | for every input, including an empty selection, the list writes 5 × (number of selected photos) lines |
| `Render.ListingStructure` | src/index.js:10-14 | the k-th group of five lines is `<div>`, title, date, location, `</div>` of the k-th selected photo |
| `Render.ListingConcat` | src/index.js:7-15 | splitting the input splits the list output at the same point, so blocks follow input order |
| `Render.ListingEmptyIff` | src/index.js:8-14 | the list writes nothing iff no photo is dated after the cutoff, which includes the empty input |
| `Render.PersonSharesPhotoData` | src/index.js:4 | the profile has five lines, and its last three equal the inner lines of that photo's list block |
| `Render.ThumbnailIgnoresPhoto` | src/index.js:27-29 | the thumbnail line is the same fixed glyph paragraph whatever the person, photo or date formatter |
| `Render.ParagraphInjective` | src/index.js:2 | a fact about the unescaped `<p>…</p>\n` wrapper, not a promise of the program: equal paragraph lines have equal contents |
| `Render.TestPhotoLines` | src/index.js:17-21 | a Paris photo dated 2020-01-01 yields its title line, then `<p>date: Wed Jan 01 2020</p>`, then `<p>location: Paris</p>` |
| `Render.PersonExample` | src/index.test.js:5-17 | John Doe's profile is exactly the five literal lines the test expects, in order |
| `Render.ListingExample` | src/index.test.js:22-37 | of the photos dated 2020, 2019 and 2018, only "Photo 1" is written: exactly five literal lines |
| `Render.RenderPhoto` | src/index.js:27-29 | appends the single thumbnail paragraph and ignores the photo |
| `Render.EmitPhotoData` | src/index.js:17-21 | appends exactly the title, date and location lines, in that order |
| `Render.RenderPerson` | src/index.js:1-5 | appends exactly the five profile lines: name, thumbnail, title, date, location |
| `Render.ListRecentPhotos` | src/index.js:7-15 | appends exactly one block per selected photo, in input order, and nothing else |

## Left out

- `toDateString` formatting (weekday, month names, locale): a host-library call, kept as the parameter `fmt`.
- JavaScript `Date` internals: time zones, daylight-saving shifts, the 0-based month argument of `new Date(2019, 0, 1)`, and `Invalid Date`.
- Out-of-range dates: `DateTime` does not force its fields into range. A value that fails `Dates.WellFormed` has no JavaScript `Date` counterpart, and it is not normalised the way JavaScript would (`DateTime(2019, 1, 0, 90000000)` is compared as written, not as 2019-01-01 01:00). Photo dates are taken to be well-formed.
- The real stream object and its mocks: only the ordered sequence of written strings is modelled. Errors thrown by `write` are not modelled.
- Malformed records (missing fields, non-date values): in the source they fault at run time. Here every `Photo` and `Person` has all its fields.
- HTML escaping: the source does none, and neither does the model.
- The test file's placeholder in `src/index.test.js:14` is a mis-encoded copy of the glyph. The model uses the glyph from `src/index.js:28` (U+1F303) as one named constant.
