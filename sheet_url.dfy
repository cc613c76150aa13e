/** Sheet-id extraction and CSV export URL derivation, the string logic of
    `get_google_sheet_csv` (UpdateStateHouseBattleMap.py, lines 16-28). */
module SheetUrl {
  import opened Wrappers
  import opened PyStr

  /** The marker that introduces the sheet id in a spreadsheet link. */
  const Marker: string := "/d/"

  /** Everything of an export URL before the marker. */
  const ExportHost: string := "https://docs.google.com/spreadsheets"

  /** The `ValueError` raised for a link without the marker. */
  datatype UrlError = InvalidSheetUrlFormat

  /** `sheet_url.split('/d/')[1].split('/')[0]`, guarded by `'/d/' in sheet_url`. */
  function SheetId(url: string): (r: Result<string, UrlError>)
    ensures r.Failure? <==> !Occurs(url, Marker)
    ensures r.Success? ==> '/' !in r.value
  {
    if Contains(url, Marker) then
      var id := Split(Split(url, Marker)[1], "/")[0];
      OccursChar(id, '/');
      Success(id)
    else
      Failure(InvalidSheetUrlFormat)
  }

  /** Everything of an export URL after the sheet id. */
  const ExportQuery: string := "/export?format=csv"

  /** The CSV export URL for a sheet id: the id sits between the fixed host
      with the marker and the fixed query, so it can be read back by position. */
  function ExportUrl(id: string): (u: string)
    ensures |u| == |ExportHost| + |Marker| + |id| + |ExportQuery|
    ensures u[..|ExportHost| + |Marker|] == ExportHost + Marker
    ensures u[|ExportHost| + |Marker|..|u| - |ExportQuery|] == id
    ensures u[|u| - |ExportQuery|..] == ExportQuery
  {
    ExportHost + Marker + id + ExportQuery
  }

  /** The URL `get_google_sheet_csv` fetches: the export URL of the link's sheet id. */
  function CsvExportUrl(url: string): (r: Result<string, UrlError>)
    ensures r.Failure? <==> !Occurs(url, Marker)
    ensures r.Success? ==> exists id :: '/' !in id && r.value == ExportUrl(id)
  {
    match SheetId(url)
    case Failure(e) => Failure(e)
    case Success(id) => Success(ExportUrl(id))
  }

  /** `i` is where the first marker of `url` starts. */
  ghost predicate IsFirstMarker(url: string, i: nat) {
    OccursAt(url, Marker, i) && forall j: nat :: j < i ==> !OccursAt(url, Marker, j)
  }

  /** `id` is the text of `url` from index `start` up to the next `/` or the end. */
  ghost predicate SegmentAt(url: string, start: nat, id: string) {
    && start + |id| <= |url|
    && url[start..start + |id|] == id
    && '/' !in id
    && (start + |id| == |url| || url[start + |id|] == '/')
  }

  /** At most one segment starts at a given index. */
  lemma SegmentUnique(url: string, start: nat, a: string, b: string)
    requires SegmentAt(url, start, a) && SegmentAt(url, start, b)
    ensures a == b
  {
  }

  /** The extracted id is the segment right after the first marker. */
  lemma SheetIdIsSegmentAfterFirstMarker(url: string, i: nat)
    requires IsFirstMarker(url, i)
    ensures SheetId(url).Success?
    ensures SegmentAt(url, i + |Marker|, SheetId(url).value)
  {
    assert Occurs(url, Marker);
    assert Find(url, Marker) == Some(i);
    var rest := url[i + |Marker|..];
    var piece := Split(url, Marker)[1];
    assert piece == Split(rest, Marker)[0];
    SplitCuts(rest, Marker);
    var id := SheetId(url).value;
    assert id == Split(piece, "/")[0];
    SplitCuts(piece, "/");
    assert id <= rest;
    if |id| < |rest| {
      if |id| < |piece| {
        assert OccursAt(piece, "/", |id|);
        assert piece[|id|] == piece[|id|..|id| + 1][0] == '/';
        assert rest[|id|] == '/';
      } else {
        assert OccursAt(rest, Marker, |piece|);
        assert rest[|piece|] == rest[|piece|..|piece| + 3][0] == '/';
      }
      assert url[i + |Marker| + |id|] == rest[|id|];
    }
    assert url[i + |Marker|..i + |Marker| + |id|] == rest[..|id|];
  }

  /** A link `prefix + "/d/" + id + "/" + rest`, where no marker starts inside
      `prefix` (not even one that runs into the marker that follows it), yields `id`. */
  lemma ExtractFromWellFormed(prefix: string, id: string, rest: string)
    requires !Occurs(prefix + "/d", Marker)
    requires '/' !in id
    ensures SheetId(prefix + Marker + id + "/" + rest) == Success(id)
  {
    var url := prefix + Marker + id + "/" + rest;
    var p := |prefix|;
    assert url[p..p + 3] == Marker;
    forall j: nat | j < p
      ensures !OccursAt(url, Marker, j)
    {
      assert !OccursAt(prefix + "/d", Marker, j);
      assert url[j..j + 3] == (prefix + "/d")[j..j + 3];
    }
    assert IsFirstMarker(url, p);
    SheetIdIsSegmentAfterFirstMarker(url, p);
    assert url[p + 3..p + 3 + |id|] == id;
    assert url[p + 3 + |id|] == '/';
    assert SegmentAt(url, p + 3, id);
    SegmentUnique(url, p + 3, id, SheetId(url).value);
  }

  /** Appending text without `/` cannot create a marker. */
  lemma ThenSlashFree(a: string, b: string)
    requires !Occurs(a, Marker) && '/' !in b
    ensures !Occurs(a + b, Marker)
  {
    var s := a + b;
    forall j: nat | j + 3 <= |s|
      ensures !OccursAt(s, Marker, j)
    {
      if j + 3 <= |a| {
        assert s[j..j + 3] == a[j..j + 3];
        assert !OccursAt(a, Marker, j);
      } else {
        assert s[j..j + 3][2] == s[j + 2] == b[j + 2 - |a|] != '/';
      }
    }
  }

  /** Appending `/` creates a marker only after a trailing `/d`. */
  lemma ThenSlash(a: string)
    requires !Occurs(a, Marker) && !(|a| >= 2 && a[|a| - 2] == '/' && a[|a| - 1] == 'd')
    ensures !Occurs(a + "/", Marker)
  {
    var s := a + "/";
    forall j: nat | j + 3 <= |s|
      ensures !OccursAt(s, Marker, j)
    {
      if j + 3 <= |a| {
        assert s[j..j + 3] == a[j..j + 3];
        assert !OccursAt(a, Marker, j);
      } else {
        assert j == |a| - 2;
        assert Marker[0] == '/' && Marker[1] == 'd';
        assert s[j..j + 3][0] == a[|a| - 2] && s[j..j + 3][1] == a[|a| - 1];
      }
    }
  }

  lemma ExportHostPieces()
    ensures ExportHost + "/d" == "https:" + "/" + "/" + "docs.google.com" + "/" + "spreadsheets" + "/" + "d"
  {
  }

  /** No marker starts inside the export host, nor where it meets the marker. */
  lemma ExportHostHasNoMarker()
    ensures !Occurs(ExportHost + "/d", Marker)
  {
    ExportHostPieces();
    var s := "https:";
    ThenSlashFree("", s);
    assert "" + s == s;
    ThenSlash(s);
    ThenSlash(s + "/");
    ThenSlashFree(s + "/" + "/", "docs.google.com");
    ThenSlash(s + "/" + "/" + "docs.google.com");
    ThenSlashFree(s + "/" + "/" + "docs.google.com" + "/", "spreadsheets");
    ThenSlash(s + "/" + "/" + "docs.google.com" + "/" + "spreadsheets");
    ThenSlashFree(s + "/" + "/" + "docs.google.com" + "/" + "spreadsheets" + "/", "d");
  }

  /** Extraction is exactly "the segment after the first marker", both ways. */
  lemma SheetIdCharacterized(url: string, id: string)
    ensures SheetId(url) == Success(id) <==>
              exists i: nat :: IsFirstMarker(url, i) && SegmentAt(url, i + |Marker|, id)
  {
    if SheetId(url) == Success(id) {
      var i := Find(url, Marker).value;
      SheetIdIsSegmentAfterFirstMarker(url, i);
      assert IsFirstMarker(url, i) && SegmentAt(url, i + |Marker|, id);
    }
    if i: nat :| IsFirstMarker(url, i) && SegmentAt(url, i + |Marker|, id) {
      SheetIdIsSegmentAfterFirstMarker(url, i);
      SegmentUnique(url, i + |Marker|, id, SheetId(url).value);
    }
  }

  /** The id is read back from the export URL built from it. */
  lemma ExportUrlRoundTrip(id: string)
    requires '/' !in id
    ensures SheetId(ExportUrl(id)) == Success(id)
  {
    ExportHostHasNoMarker();
    ExtractFromWellFormed(ExportHost, id, "export?format=csv");
    assert ExportUrl(id) == ExportHost + Marker + id + "/" + "export?format=csv";
  }

  /** The export URL derived from a link is the one built from the id
      extracted from it, and from no other id. */
  lemma CsvExportUrlOfSheetId(url: string, id: string)
    ensures CsvExportUrl(url) == Success(ExportUrl(id)) <==> SheetId(url) == Success(id)
  {
  }

  /** Deriving the export URL of an export URL changes nothing. */
  lemma CsvExportUrlIdempotent(url: string)
    requires CsvExportUrl(url).Success?
    ensures CsvExportUrl(CsvExportUrl(url).value) == CsvExportUrl(url)
  {
    ExportUrlRoundTrip(SheetId(url).value);
  }

  /** A link in the documented format, `.../spreadsheets/d/SHEET_ID/edit...`. */
  lemma DocumentedFormat(id: string, rest: string)
    requires '/' !in id
    ensures CsvExportUrl(ExportHost + "/d/" + id + "/edit" + rest) == Success(ExportUrl(id))
  {
    ExportHostHasNoMarker();
    ExtractFromWellFormed(ExportHost, id, "edit" + rest);
    assert ExportHost + "/d/" + id + "/edit" + rest == ExportHost + Marker + id + "/" + ("edit" + rest);
  }

  /** An empty id, as in `.../d//edit`, is accepted. */
  lemma EmptyIdAccepted()
    ensures SheetId(ExportHost + "/d//edit") == Success("")
  {
    ExportHostHasNoMarker();
    ExtractFromWellFormed(ExportHost, "", "edit");
    assert ExportHost + "/d//edit" == ExportHost + Marker + "" + "/" + "edit";
  }

  /** A prefix free of the marker is not enough: one ending in `/d` moves the
      first marker two characters to the left. */
  lemma PrefixEndingInSlashD()
    ensures SheetId("/d" + Marker + "x" + "/") == Success("d")
  {
    var url := "/d" + Marker + "x" + "/";
    assert IsFirstMarker(url, 0);
    SheetIdIsSegmentAfterFirstMarker(url, 0);
    assert SegmentAt(url, 3, "d");
    SegmentUnique(url, 3, "d", SheetId(url).value);
  }
}
