/** The HTML renderer: a person's profile and the list of recent photos.

    Each operation writes literal markup lines to a `Sink`. What it writes is
    given by a pure function of its inputs (`PersonLines`, `PhotoDataLines`,
    `RecentListing`); the methods are proved to append exactly that, and the
    lemmas state what that output is. Formatting a date (the host's
    `toDateString`) is a parameter, `fmt`. */
module Render {
  import opened Dates
  import opened Sinks

  datatype Photo = Photo(title: string, date: DateTime, location: string)

  datatype Person = Person(name: string, photo: Photo)

  /** The host's date formatting, left uninterpreted. */
  type DateFormatter = DateTime -> string

  /** The thumbnail glyph, U+1F303 NIGHT WITH STARS. */
  const Thumbnail: string := "\U{1F303}"

  const OpenDiv: string := "<div>\n"

  const CloseDiv: string := "</div>\n"

  /** One paragraph line: `<p>{content}</p>` and a newline. */
  function Paragraph(content: string): string {
    "<p>" + content + "</p>\n"
  }

  function TitleLine(photo: Photo): string {
    Paragraph("title: " + photo.title)
  }

  function DateLine(photo: Photo, fmt: DateFormatter): string {
    Paragraph("date: " + fmt(photo.date))
  }

  function LocationLine(photo: Photo): string {
    Paragraph("location: " + photo.location)
  }

  // ---------------------------------------------------------------------
  // What each operation writes
  // ---------------------------------------------------------------------

  /** The three data lines of a photo, in the order they are written. */
  function PhotoDataLines(photo: Photo, fmt: DateFormatter): seq<string> {
    [TitleLine(photo), DateLine(photo, fmt), LocationLine(photo)]
  }

  /** The block the recent-photos list writes for one selected photo. */
  function PhotoBlock(photo: Photo, fmt: DateFormatter): seq<string> {
    [OpenDiv] + PhotoDataLines(photo, fmt) + [CloseDiv]
  }

  /** The five lines of a person's profile. */
  function PersonLines(person: Person, fmt: DateFormatter): seq<string> {
    [Paragraph(person.name), Paragraph(Thumbnail)] + PhotoDataLines(person.photo, fmt)
  }

  /** The cutoff: local midnight at the start of 1 January 2019, the earliest
      instant of that year. */
  function RecentDateCutoff(): (c: DateTime)
    ensures WellFormed(c) && c.year == 2019
    ensures forall d :: WellFormed(d) && d.year == 2019 ==> d == c || Later(d, c)
  {
    DateTime(2019, 1, 1, 0)
  }

  /** The selection rule: strictly later than the cutoff. A photo from 2020 on
      is selected; one from before 2019, or from the cutoff instant, is not. */
  predicate IsRecent(photo: Photo): (r: bool)
    ensures photo.date.year >= 2020 ==> r
    ensures photo.date.year < 2019 ==> !r
    ensures photo.date == RecentDateCutoff() ==> !r
  {
    Later(photo.date, RecentDateCutoff())
  }

  /** The photos that are selected, in input order. */
  function RecentPhotos(photos: seq<Photo>): (r: seq<Photo>)
    ensures |r| <= |photos|
    ensures forall p :: p in r <==> p in photos && IsRecent(p)
  {
    if photos == [] then []
    else (if IsRecent(photos[0]) then [photos[0]] else []) + RecentPhotos(photos[1..])
  }

  /** The blocks of the given photos, one after another. */
  function Blocks(photos: seq<Photo>, fmt: DateFormatter): (r: seq<string>)
    ensures |r| == 5 * |photos|
  {
    if photos == [] then [] else PhotoBlock(photos[0], fmt) + Blocks(photos[1..], fmt)
  }

  /** Everything the recent-photos list writes. */
  function RecentListing(photos: seq<Photo>, fmt: DateFormatter): seq<string> {
    Blocks(RecentPhotos(photos), fmt)
  }

  // ---------------------------------------------------------------------
  // Properties of the output
  // ---------------------------------------------------------------------

  /** A photo is selected exactly when it is not dated on or before the cutoff. */
  lemma RecentIffNotOnOrBefore(photo: Photo)
    ensures IsRecent(photo) <==>
            !(photo.date == RecentDateCutoff() || Later(RecentDateCutoff(), photo.date))
  {
    LaterTrichotomy(photo.date, RecentDateCutoff());
  }

  /** Selection keeps order: the survivors of a prefix come before those of
      the rest. */
  lemma {:induction false} RecentPhotosConcat(a: seq<Photo>, b: seq<Photo>)
    ensures RecentPhotos(a + b) == RecentPhotos(a) + RecentPhotos(b)
  {
    if a == [] {
      assert a + b == b;
    } else {
      assert (a + b)[0] == a[0];
      assert (a + b)[1..] == a[1..] + b;
      RecentPhotosConcat(a[1..], b);
    }
  }

  lemma {:induction false} BlocksConcat(a: seq<Photo>, b: seq<Photo>, fmt: DateFormatter)
    ensures Blocks(a + b, fmt) == Blocks(a, fmt) + Blocks(b, fmt)
  {
    if a == [] {
      assert a + b == b;
    } else {
      assert (a + b)[0] == a[0];
      assert (a + b)[1..] == a[1..] + b;
      BlocksConcat(a[1..], b, fmt);
    }
  }

  /** The k-th block of the output is the block of the k-th photo. */
  lemma {:induction false} BlocksAt(photos: seq<Photo>, k: nat, fmt: DateFormatter)
    requires k < |photos|
    ensures Blocks(photos, fmt)[5 * k .. 5 * k + 5] == PhotoBlock(photos[k], fmt)
  {
    var first, rest := PhotoBlock(photos[0], fmt), Blocks(photos[1..], fmt);
    assert Blocks(photos, fmt) == first + rest;
    if k == 0 {
      assert (first + rest)[..5] == first;
    } else {
      BlocksAt(photos[1..], k - 1, fmt);
      assert (first + rest)[5 * k .. 5 * k + 5] == rest[5 * (k - 1) .. 5 * (k - 1) + 5];
    }
  }

  /** The list is written block by block, in input order: splitting the input
      splits the output at the same point. */
  lemma ListingConcat(a: seq<Photo>, b: seq<Photo>, fmt: DateFormatter)
    ensures RecentListing(a + b, fmt) == RecentListing(a, fmt) + RecentListing(b, fmt)
  {
    RecentPhotosConcat(a, b);
    BlocksConcat(RecentPhotos(a), RecentPhotos(b), fmt);
  }

  /** The list has five lines per selected photo, for every input. */
  lemma ListingLength(photos: seq<Photo>, fmt: DateFormatter)
    ensures |RecentListing(photos, fmt)| == 5 * |RecentPhotos(photos)|
  {
  }

  /** Lines 5k to 5k+4 of the list are the block of the k-th selected photo. */
  lemma ListingStructure(photos: seq<Photo>, k: nat, fmt: DateFormatter)
    requires k < |RecentPhotos(photos)|
    ensures RecentListing(photos, fmt)[5 * k .. 5 * k + 5]
            == [OpenDiv] + PhotoDataLines(RecentPhotos(photos)[k], fmt) + [CloseDiv]
  {
    BlocksAt(RecentPhotos(photos), k, fmt);
  }

  /** Nothing is written exactly when no photo is later than the cutoff
      (in particular for an empty input). */
  lemma ListingEmptyIff(photos: seq<Photo>, fmt: DateFormatter)
    ensures RecentListing(photos, fmt) == [] <==>
            forall i :: 0 <= i < |photos| ==> !IsRecent(photos[i])
  {
    if RecentListing(photos, fmt) != [] {
      var p := RecentPhotos(photos)[0];
      assert p in RecentPhotos(photos);
      var i :| 0 <= i < |photos| && photos[i] == p;
      assert IsRecent(photos[i]);
    }
  }

  /** The profile's last three lines are the inside of that photo's block in
      the recent-photos list: both come from the same data helper. */
  lemma PersonSharesPhotoData(person: Person, fmt: DateFormatter)
    ensures |PersonLines(person, fmt)| == 5
    ensures PersonLines(person, fmt)[2..] == PhotoBlock(person.photo, fmt)[1..4]
  {
  }

  /** The thumbnail line does not depend on the person or the photo. */
  lemma ThumbnailIgnoresPhoto(a: Person, b: Person, fmt: DateFormatter, fmt': DateFormatter)
    ensures PersonLines(a, fmt)[1] == PersonLines(b, fmt')[1] == "<p>\U{1F303}</p>\n"
  {
  }

  /** No escaping is done, yet the paragraph line still determines its content. */
  lemma ParagraphInjective(x: string, y: string)
    requires Paragraph(x) == Paragraph(y)
    ensures x == y
  {
    assert |x| == |y|;
    assert x == Paragraph(x)[3..3 + |x|];
    assert y == Paragraph(y)[3..3 + |y|];
  }

  /** The person in the profile test: exactly these five lines. */
  lemma PersonExample(fmt: DateFormatter)
    requires fmt(DateTime(2020, 1, 1, 0)) == "Wed Jan 01 2020"
    ensures PersonLines(Person("John Doe", Photo("My Photo", DateTime(2020, 1, 1, 0), "Paris")), fmt)
            == ["<p>John Doe</p>\n",
                "<p>\U{1F303}</p>\n",
                "<p>title: My Photo</p>\n",
                "<p>date: Wed Jan 01 2020</p>\n",
                "<p>location: Paris</p>\n"]
  {
    var photo := Photo("My Photo", DateTime(2020, 1, 1, 0), "Paris");
    TestPhotoLines(photo, fmt);
    assert Paragraph("John Doe") == "<p>John Doe</p>\n";
    assert Paragraph(Thumbnail) == "<p>\U{1F303}</p>\n";
    assert Paragraph("title: " + "My Photo") == "<p>title: My Photo</p>\n";
  }

  /** The three photos in the list test: only the 2020 photo is written; the
      one dated exactly on the cutoff is not. */
  lemma ListingExample(fmt: DateFormatter)
    requires fmt(DateTime(2020, 1, 1, 0)) == "Wed Jan 01 2020"
    ensures RecentListing([Photo("Photo 1", DateTime(2020, 1, 1, 0), "Paris"),
                           Photo("Photo 2", DateTime(2019, 1, 1, 0), "Paris"),
                           Photo("Photo 3", DateTime(2018, 1, 1, 0), "Paris")], fmt)
            == ["<div>\n",
                "<p>title: Photo 1</p>\n",
                "<p>date: Wed Jan 01 2020</p>\n",
                "<p>location: Paris</p>\n",
                "</div>\n"]
  {
    var p1 := Photo("Photo 1", DateTime(2020, 1, 1, 0), "Paris");
    var p2 := Photo("Photo 2", DateTime(2019, 1, 1, 0), "Paris");
    var p3 := Photo("Photo 3", DateTime(2018, 1, 1, 0), "Paris");
    RecentPhotosConcat([p1], [p2, p3]);
    RecentPhotosConcat([p2], [p3]);
    assert [p1] + [p2, p3] == [p1, p2, p3];
    assert [p2] + [p3] == [p2, p3];
    assert RecentPhotos([p1, p2, p3]) == [p1];
    assert [p1][1..] == [];
    TestPhotoLines(p1, fmt);
    assert Paragraph("title: " + "Photo 1") == "<p>title: Photo 1</p>\n";
  }

  /** The data lines of a photo of the two tests, dated 1 January 2020 in Paris. */
  lemma TestPhotoLines(photo: Photo, fmt: DateFormatter)
    requires photo.date == DateTime(2020, 1, 1, 0) && photo.location == "Paris"
    requires fmt(DateTime(2020, 1, 1, 0)) == "Wed Jan 01 2020"
    ensures PhotoDataLines(photo, fmt)
            == [Paragraph("title: " + photo.title), "<p>date: Wed Jan 01 2020</p>\n", "<p>location: Paris</p>\n"]
  {
    var lines := PhotoDataLines(photo, fmt);
    assert lines[1] == "<p>date: Wed Jan 01 2020</p>\n";
    assert lines[2] == "<p>location: Paris</p>\n";
  }

  // ---------------------------------------------------------------------
  // The renderer
  // ---------------------------------------------------------------------

  /** `renderPhoto`: writes the thumbnail placeholder; the photo is unused. */
  method RenderPhoto(out: Sink, photo: Photo)
    modifies out
    ensures out.trace == old(out.trace) + [Paragraph(Thumbnail)]
  {
    out.Write(Paragraph(Thumbnail));
  }

  /** `emitPhotoData`: writes the title, date and location lines. */
  method EmitPhotoData(out: Sink, photo: Photo, fmt: DateFormatter)
    modifies out
    ensures out.trace == old(out.trace) + PhotoDataLines(photo, fmt)
  {
    out.Write(TitleLine(photo));
    out.Write(DateLine(photo, fmt));
    out.Write(LocationLine(photo));
  }

  /** `renderPerson`: the name, the thumbnail, then the photo's data. */
  method RenderPerson(out: Sink, person: Person, fmt: DateFormatter)
    modifies out
    ensures out.trace == old(out.trace) + PersonLines(person, fmt)
  {
    out.Write(Paragraph(person.name));
    RenderPhoto(out, person.photo);
    EmitPhotoData(out, person.photo, fmt);
  }

  /** `listeRecentPhotos`: selects the recent photos, then writes one block
      per selected photo, in order. */
  method ListRecentPhotos(out: Sink, photos: seq<Photo>, fmt: DateFormatter)
    modifies out
    ensures out.trace == old(out.trace) + RecentListing(photos, fmt)
  {
    var recent := RecentPhotos(photos);
    for i := 0 to |recent|
      invariant out.trace == old(out.trace) + Blocks(recent[..i], fmt)
    {
      out.Write(OpenDiv);
      EmitPhotoData(out, recent[i], fmt);
      out.Write(CloseDiv);
      BlocksConcat(recent[..i], [recent[i]], fmt);
      assert recent[..i + 1] == recent[..i] + [recent[i]];
      assert [recent[i]][1..] == [];
    }
    assert recent[..|recent|] == recent;
  }
}
