/** Lists of image URLs as the listing pages and routes handle them: text
    split on a separator, each piece trimmed, empty pieces dropped. */
module UrlList {
  import opened Strings

  /** `pieces.map(p => p.trim()).filter(p => p.length > 0)`. */
  function CleanPieces(pieces: seq<string>): (r: seq<string>)
    ensures |r| <= |pieces|
    ensures forall u :: u in r ==> u != "" && IsTrimmed(u)
  {
    if pieces == [] then []
    else
      var t := Trim(pieces[0]);
      var rest := CleanPieces(pieces[1..]);
      if t == "" then rest else [t] + rest
  }

  /** One piece is kept as its trimmed text, or dropped when that is empty.
      With `CleanPiecesAppend` this determines the cleaning of every list. */
  lemma CleanPiecesSingleton(p: string)
    ensures CleanPieces([p]) == (if Trim(p) == "" then [] else [Trim(p)])
  {
    assert [p][1..] == [];
  }

  /** Every kept piece is the trimmed text of an input piece, and every
      input piece whose trimmed text is not empty is kept as that text. */
  lemma {:induction false} CleanPiecesMembers(pieces: seq<string>)
    ensures forall u :: u in CleanPieces(pieces) ==> exists p :: p in pieces && u == Trim(p)
    ensures forall p :: p in pieces && Trim(p) != "" ==> Trim(p) in CleanPieces(pieces)
    decreases |pieces|
  {
    if pieces != [] {
      var rest := pieces[1..];
      CleanPiecesMembers(rest);
      assert pieces == [pieces[0]] + rest;
      forall u | u in CleanPieces(pieces) ensures exists p :: p in pieces && u == Trim(p) {
        if u !in CleanPieces(rest) {
          assert u == Trim(pieces[0]);
        } else {
          var p :| p in rest && u == Trim(p);
          assert p in pieces;
        }
      }
    }
  }

  /** Cleaning keeps the input order: cleaning a concatenation concatenates
      the cleaned parts. */
  lemma {:induction false} CleanPiecesAppend(a: seq<string>, b: seq<string>)
    ensures CleanPieces(a + b) == CleanPieces(a) + CleanPieces(b)
    decreases |a|
  {
    if a != [] {
      var ab := a + b;
      assert ab[0] == a[0] && ab[1..] == a[1..] + b;
      CleanPiecesAppend(a[1..], b);
      var t := Trim(a[0]);
      if t == "" {
        calc {
          CleanPieces(ab);
          CleanPieces(a[1..] + b);
          CleanPieces(a[1..]) + CleanPieces(b);
        }
      } else {
        calc {
          CleanPieces(ab);
          [t] + CleanPieces(a[1..] + b);
          [t] + (CleanPieces(a[1..]) + CleanPieces(b));
          ([t] + CleanPieces(a[1..])) + CleanPieces(b);
        }
      }
    } else {
      assert a + b == b;
    }
  }

  /** A URL as the edit form can carry it in its text: non-empty, no white
      space at the ends, and free of the separator. */
  predicate IsCleanUrl(u: string, sep: char) {
    u != "" && IsTrimmed(u) && sep !in u
  }

  /** Pieces that are already non-empty and trimmed are kept as they are. */
  lemma {:induction false} CleanPiecesOfClean(urls: seq<string>)
    requires forall u :: u in urls ==> u != "" && IsTrimmed(u)
    ensures CleanPieces(urls) == urls
    decreases |urls|
  {
    if urls != [] {
      assert urls[0] in urls;
      assert forall u :: u in urls[1..] ==> u in urls;
      CleanPiecesOfClean(urls[1..]);
    }
  }

  /** Cleaning never introduces a character that no piece contains. */
  lemma {:induction false} CleanPiecesAvoid(pieces: seq<string>, sep: char)
    requires forall p :: p in pieces ==> sep !in p
    ensures forall u :: u in CleanPieces(pieces) ==> sep !in u
    decreases |pieces|
  {
    if pieces != [] {
      assert pieces[0] in pieces;
      assert forall p :: p in pieces[1..] ==> p in pieces;
      CleanPiecesAvoid(pieces[1..], sep);
    }
  }

  /** `String(text || "").split(sep).map(trim).filter(nonEmpty)`. */
  function ParseList(text: string, sep: char): (r: seq<string>)
    ensures forall u :: u in r ==> IsCleanUrl(u, sep)
    ensures forall u :: u in r ==> exists p :: p in Split(text, sep) && u == Trim(p)
    ensures forall p :: p in Split(text, sep) && Trim(p) != "" ==> Trim(p) in r
  {
    CleanPiecesMembers(Split(text, sep));
    CleanPiecesAvoid(Split(text, sep), sep);
    CleanPieces(Split(text, sep))
  }

  /** Joining clean URLs with the separator and parsing the text gives the
      URLs back, the empty list included. */
  lemma JoinParseRoundTrip(urls: seq<string>, sep: char)
    requires forall u :: u in urls ==> IsCleanUrl(u, sep)
    ensures ParseList(Join(urls, sep), sep) == urls
  {
    if urls == [] {
      assert Split("", sep) == [""];
      assert Trim("") == "";
    } else {
      SplitJoin(urls, sep);
      CleanPiecesOfClean(urls);
    }
  }
}
