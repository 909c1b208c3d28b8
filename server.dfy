/**
 * Two pieces of the API server (backend/main.py): the CORS allow-list, built once
 * at start-up from the `ALLOWED_ORIGINS` setting, and the file-name check that
 * `/api/analyze` applies to an upload before anything is written.
 */
module Server {
  import opened Wrappers
  import opened Text

  /** The origins listed in the default setting. */
  const LocalDev: string := "http://localhost:3000"
  const LocalVite: string := "http://localhost:5173"
  /** The deployed frontend, `https://event-review-summarizer-frontend.onrender.com`, written in three parts. */
  const FrontendUrl: string := "https://event-" + "review-summarizer-" + "frontend.onrender.com"

  /**
   * The setting used when `ALLOWED_ORIGINS` is not in the environment: the three
   * origins above joined by commas, with no spaces.
   */
  const DefaultAllowedOrigins: string := LocalDev + "," + LocalVite + "," + FrontendUrl

  /** An origin that does not end in `/`. */
  predicate NoSlashEnd(origin: string)
  {
    origin == [] || origin[|origin| - 1] != '/'
  }

  /** A piece of the setting, stripped of surrounding whitespace, then of every trailing `/`. */
  function CleanOrigin(piece: string): (r: string)
    ensures NoSlashEnd(r)
    ensures r <= PyStrip(piece)
  {
    RStripChar(PyStrip(piece), '/')
  }

  /** A piece is kept iff it is not blank once stripped; the test comes before the slash cut. */
  predicate Kept(piece: string)
  {
    PyStrip(piece) != []
  }

  /** What one piece contributes to the comprehension. */
  function KeepPiece(piece: string): (r: seq<string>)
    ensures |r| <= 1
    ensures forall i :: 0 <= i < |r| ==> NoSlashEnd(r[i])
  {
    if Kept(piece) then [CleanOrigin(piece)] else []
  }

  /** The list comprehension over the comma-separated pieces. */
  function KeepOrigins(pieces: seq<string>): (r: seq<string>)
    ensures |r| <= |pieces|
  {
    if pieces == [] then []
    else KeepPiece(pieces[0]) + KeepOrigins(pieces[1..])
  }

  /** No origin of the list ends in `/`. */
  predicate NoneSlashEnded(origins: seq<string>)
  {
    forall i :: 0 <= i < |origins| ==> NoSlashEnd(origins[i])
  }

  lemma NoneSlashEndedConcat(x: seq<string>, y: seq<string>)
    requires NoneSlashEnded(x) && NoneSlashEnded(y)
    ensures NoneSlashEnded(x + y)
  {
    forall i | 0 <= i < |x + y| ensures NoSlashEnd((x + y)[i]) {
      if i < |x| { assert (x + y)[i] == x[i]; } else { assert (x + y)[i] == y[i - |x|]; }
    }
  }

  /** Every origin the comprehension keeps has lost its trailing slashes. */
  lemma {:induction false} KeptOriginsNoSlash(pieces: seq<string>)
    ensures NoneSlashEnded(KeepOrigins(pieces))
  {
    if pieces != [] {
      KeptOriginsNoSlash(pieces[1..]);
      NoneSlashEndedConcat(KeepPiece(pieces[0]), KeepOrigins(pieces[1..]));
    }
  }

  /** Each piece is handled on its own and the input order is kept. */
  lemma {:induction false} KeepOriginsAppend(a: seq<string>, b: seq<string>)
    ensures KeepOrigins(a + b) == KeepOrigins(a) + KeepOrigins(b)
  {
    if a != [] {
      var head := KeepPiece(a[0]);
      assert (a + b)[1..] == a[1..] + b;
      assert (a + b)[0] == a[0];
      assert KeepOrigins(a + b) == head + KeepOrigins(a[1..] + b);
      KeepOriginsAppend(a[1..], b);
      assert KeepOrigins(a) == head + KeepOrigins(a[1..]);
      assert head + (KeepOrigins(a[1..]) + KeepOrigins(b)) == (head + KeepOrigins(a[1..])) + KeepOrigins(b);
    } else {
      assert a + b == b;
    }
  }

  /** One piece: dropped iff blank, otherwise cleaned. */
  lemma KeepOne(piece: string)
    ensures KeepOrigins([piece]) == if Kept(piece) then [CleanOrigin(piece)] else []
  {
    assert [piece][1..] == [];
  }

  /** A piece of slashes passes the blank test and then is cut down to the empty origin. */
  lemma SlashesGiveEmptyOrigin(piece: string)
    requires piece != [] && forall i :: 0 <= i < |piece| ==> piece[i] == '/'
    ensures KeepOrigins([piece]) == [""]
  {
    PyStripUntrimmed(piece);
    RStripCharAll(piece, '/');
    KeepOne(piece);
  }

  /** The pieces of a setting that survive. */
  function NormaliseOrigins(setting: string): seq<string>
  {
    KeepOrigins(Split(setting, ','))
  }

  /** The guard after the comprehension: the frontend URL is appended when it is missing. */
  function WithFrontend(kept: seq<string>): seq<string>
  {
    if FrontendUrl in kept then kept else kept + [FrontendUrl]
  }

  /** `allowed_origins` after start-up: the kept pieces, then the frontend URL if it was missing. */
  function AllowedOrigins(env: Option<string>): seq<string>
  {
    WithFrontend(NormaliseOrigins(env.GetOr(DefaultAllowedOrigins)))
  }

  /** The start-up code: the comprehension, then the conditional `append`. */
  method BuildAllowedOrigins(env: Option<string>) returns (origins: seq<string>)
    ensures origins == AllowedOrigins(env)
  {
    var setting := if env.Some? then env.value else DefaultAllowedOrigins;
    origins := NormaliseOrigins(setting);
    if FrontendUrl !in origins {
      origins := origins + [FrontendUrl];
    }
  }

  /**
   * Whatever the comprehension kept, the frontend URL is allowed; the kept pieces come
   * first in their order, and the URL is added once, at the end, only when it was missing.
   */
  lemma FallbackOrigin(kept: seq<string>)
    ensures var r := WithFrontend(kept);
      FrontendUrl in r
      && |kept| <= |r| && r[..|kept|] == kept
      && |r| == (if FrontendUrl in kept then |kept| else |kept| + 1)
      && (|r| > |kept| ==> r[|kept|] == FrontendUrl)
  {
    assert (kept + [FrontendUrl])[..|kept|] == kept;
  }

  /** No allowed origin ends in `/`. */
  lemma NoTrailingSlash(env: Option<string>)
    ensures NoneSlashEnded(AllowedOrigins(env))
  {
    var kept := NormaliseOrigins(env.GetOr(DefaultAllowedOrigins));
    KeptOriginsNoSlash(Split(env.GetOr(DefaultAllowedOrigins), ','));
    FrontendKept();
    assert NoSlashEnd(CleanOrigin(FrontendUrl));
    NoneSlashEndedConcat(kept, [FrontendUrl]);
  }

  /** A clean origin with no whitespace or trailing slash survives unchanged. */
  lemma CleanPieceKept(piece: string)
    requires piece != [] && !IsPySpace(piece[0]) && !IsPySpace(piece[|piece| - 1]) && piece[|piece| - 1] != '/'
    ensures KeptAsIs(piece)
  {
    PyStripUntrimmed(piece);
  }

  lemma {:induction false} SplitThree(x: string, y: string, z: string)
    requires ',' !in x && ',' !in y && ',' !in z
    ensures Split(x + [','] + y + [','] + z, ',') == [x, y, z]
  {
    assert x + [','] + y + [','] + z == x + [','] + (y + [','] + z);
    SplitAfterPiece(x, ',', y + [','] + z);
    SplitAfterPiece(y, ',', z);
    SplitNoSeparator(z, ',');
  }

  /** A piece that survives the comprehension as itself. */
  predicate KeptAsIs(piece: string)
  {
    Kept(piece) && CleanOrigin(piece) == piece
  }

  lemma {:induction false} KeepThree(x: string, y: string, z: string)
    requires KeptAsIs(x) && KeptAsIs(y) && KeptAsIs(z)
    ensures KeepOrigins([x, y, z]) == [x, y, z]
  {
    assert KeepPiece(x) == [x] && KeepPiece(y) == [y] && KeepPiece(z) == [z];
    var s := [x, y, z];
    assert s[1..] == [y, z] && [y, z][1..] == [z] && [z][1..] == [];
    assert KeepOrigins([z]) == [z] + KeepOrigins([]);
    assert KeepOrigins([y, z]) == [y] + KeepOrigins([z]);
    assert KeepOrigins(s) == [x] + KeepOrigins([y, z]);
  }

  lemma DefaultSplit()
    ensures Split(DefaultAllowedOrigins, ',') == [LocalDev, LocalVite, FrontendUrl]
  {
    DefaultPiecesCommaFree();
    SplitThree(LocalDev, LocalVite, FrontendUrl);
  }

  lemma DefaultPiecesCommaFree()
    ensures ',' !in LocalDev && ',' !in LocalVite && ',' !in FrontendUrl
  {
    var x, y, z := "https://event-", "review-summarizer-", "frontend.onrender.com";
    assert ',' !in x && ',' !in y && ',' !in z;
  }

  lemma DefaultPiecesKept()
    ensures KeptAsIs(LocalDev) && KeptAsIs(LocalVite) && KeptAsIs(FrontendUrl)
  {
    LocalDevKept();
    LocalViteKept();
    FrontendKept();
  }

  lemma LocalDevKept() ensures KeptAsIs(LocalDev)
  {
    var p := LocalDev;
    assert p[0] == 'h' && p[|p| - 1] == '0';
    CleanPieceKept(p);
  }
  lemma LocalViteKept() ensures KeptAsIs(LocalVite)
  {
    var p := LocalVite;
    assert p[0] == 'h' && p[|p| - 1] == '3';
    CleanPieceKept(p);
  }
  lemma FrontendKept() ensures KeptAsIs(FrontendUrl)
  {
    var p := FrontendUrl;
    var tail := "frontend.onrender.com";
    assert p[|p| - 1] == tail[|tail| - 1] == 'm';
    CleanPieceKept(p);
  }

  /** The default setting yields exactly its three origins, and nothing is appended. */
  lemma DefaultConfiguration()
    ensures NormaliseOrigins(DefaultAllowedOrigins) == [LocalDev, LocalVite, FrontendUrl]
    ensures AllowedOrigins(None) == [LocalDev, LocalVite, FrontendUrl]
  {
    DefaultSplit();
    DefaultPiecesKept();
    KeepThree(LocalDev, LocalVite, FrontendUrl);
  }

  /** An empty `ALLOWED_ORIGINS` leaves only the frontend URL. */
  lemma EmptySetting()
    ensures AllowedOrigins(Some("")) == [FrontendUrl]
  {
    SplitNoSeparator("", ',');
    assert PyStrip("") == [];
    KeepOne("");
  }

  // ===== upload guard =====

  datatype HttpError = HttpError(status: nat, detail: string)

  const BadRequest: nat := 400
  const NotCsvDetail: string := "File must be a CSV file"

  /** The check at the top of `/api/analyze`: `None` lets the upload through. */
  function UploadGuard(filename: string): (r: Option<HttpError>)
    ensures r.None? <==> EndsWith(filename, ".csv")
    ensures r.Some? ==> r.value == HttpError(BadRequest, NotCsvDetail)
  {
    if EndsWith(filename, ".csv") then None else Some(HttpError(BadRequest, NotCsvDetail))
  }

  /** Any name with the lower-case `.csv` extension passes. */
  lemma CsvSuffixAccepted(stem: string)
    ensures UploadGuard(stem + ".csv").None?
  {
    assert (stem + ".csv")[|stem|..] == ".csv";
  }

  /** The comparison is case-sensitive: an upper-case extension is refused. */
  lemma UpperCaseExtensionRefused()
    ensures UploadGuard("reviews.CSV") == Some(HttpError(400, "File must be a CSV file"))
  {
    assert "reviews.CSV"[7..] != ".csv" by {
      assert "reviews.CSV"[7..][1] == 'C';
    }
  }
}
