/** `POST /api/uploads/listing-images`: every file of the form is uploaded
    to the storage bucket under a path built from the time, its index and
    a sanitised file name, and the public URLs are returned in order. The
    storage upload, the public-URL lookup and the clock are oracles. */
module UploadRoute {
  import opened Values
  import opened Strings
  import opened Session

  /** One value of the form's "files" field: a file (name and MIME type,
      "" when unknown) or something that is not a file. */
  datatype FormEntry = FileEntry(name: string, contentType: string) | TextEntry(text: string)

  /** What is asked of the storage service for one file. */
  datatype UploadRequest = UploadRequest(bucket: string, path: string, contentType: string, upsert: bool)

  /** The storage service's answer: the stored path, or an error with an
      optional message. */
  datatype UploadResult = Stored(path: string) | StorageError(message: Option<string>)

  const Bucket := "immonext"
  const NoFiles := "Aucun fichier reçu"
  const UploadErrorPrefix := "Erreur lors de l’upload vers Supabase Storage : "

  /** Drops the leading white space of `s`. */
  function DropSpaces(s: string): (r: string)
    ensures |r| <= |s| && r == s[|s| - |r|..]
    ensures r == [] || !IsSpace(r[0])
    ensures forall k :: 0 <= k < |s| - |r| ==> IsSpace(s[k])
  {
    if s != [] && IsSpace(s[0]) then
      var r := DropSpaces(s[1..]);
      assert s[1..][|s| - 1 - |r|..] == s[|s| - |r|..];
      assert forall k :: 1 <= k < |s| - |r| ==> s[k] == s[1..][k - 1];
      r
    else s
  }

  /** `.replace(/\s+/g, "-")`: every run of white space becomes one dash;
      every other character is kept. */
  function DashSpaces(s: string): (r: string)
    ensures |r| <= |s|
    ensures forall c :: c in r ==> c == '-' || (c in s && !IsSpace(c))
    ensures forall c {:trigger c in r} :: c in s && !IsSpace(c) ==> c in r
    decreases |s|
  {
    if s == [] then []
    else if IsSpace(s[0]) then
      var rest := DropSpaces(s[1..]);
      DropSpacesMembers(s[1..]);
      TailMembers(s);
      "-" + DashSpaces(rest)
    else
      TailMembers(s);
      [s[0]] + DashSpaces(s[1..])
  }

  /** Dropping leading white space keeps every other character. */
  lemma DropSpacesMembers(s: string)
    ensures forall c :: c in DropSpaces(s) ==> c in s
    ensures forall c :: c in s && !IsSpace(c) ==> c in DropSpaces(s)
  {
    var r := DropSpaces(s);
    var n := |s| - |r|;
    forall c | c in r ensures c in s {
      var k :| 0 <= k < |r| && r[k] == c;
      assert s[n + k] == c;
    }
    forall c | c in s && !IsSpace(c) ensures c in r {
      var k :| 0 <= k < |s| && s[k] == c;
      assert r[k - n] == c;
    }
  }

  /** The characters of a text are its first one and those of its tail. */
  lemma TailMembers(s: string)
    requires s != []
    ensures forall c :: c in s[1..] ==> c in s
    ensures forall c :: c in s && c != s[0] ==> c in s[1..]
  {
    assert s == [s[0]] + s[1..];
  }

  /** A name without white space is left as it is. */
  lemma {:induction false} DashSpacesOfSpaceless(s: string)
    requires forall c :: c in s ==> !IsSpace(c)
    ensures DashSpaces(s) == s
    decreases |s|
  {
    if s != [] {
      assert s[0] in s;
      assert forall c :: c in s[1..] ==> c in s;
      DashSpacesOfSpaceless(s[1..]);
    }
  }

  /** Text without white space. */
  predicate NoSpace(s: string) {
    forall c :: c in s ==> !IsSpace(c)
  }

  /** Non-empty text made only of white space. */
  predicate SpaceRun(w: string) {
    w != [] && forall c :: c in w ==> IsSpace(c)
  }

  /** Dropping an all-white-space prefix stops at the first character that
      is not white space. */
  lemma {:induction false} DropSpacesOfRun(w: string, y: string)
    requires forall c :: c in w ==> IsSpace(c)
    requires y == [] || !IsSpace(y[0])
    ensures DropSpaces(w + y) == y
    decreases |w|
  {
    if w != [] {
      assert w[0] in w;
      assert (w + y)[1..] == w[1..] + y;
      assert forall c :: c in w[1..] ==> c in w;
      DropSpacesOfRun(w[1..], y);
    } else {
      assert w + y == y;
    }
  }

  /** A white-space run at the start becomes one dash. */
  lemma DashSpacesAtRun(w: string, y: string)
    requires SpaceRun(w)
    requires y == [] || !IsSpace(y[0])
    ensures DashSpaces(w + y) == "-" + DashSpaces(y)
  {
    var s := w + y;
    assert w[0] in w;
    assert s[1..] == w[1..] + y;
    assert forall c :: c in w[1..] ==> c in w;
    DropSpacesOfRun(w[1..], y);
  }

  /** A character that is not white space is kept in place. */
  lemma DashSpacesCons(c: char, rest: string)
    requires !IsSpace(c)
    ensures DashSpaces([c] + rest) == [c] + DashSpaces(rest)
  {
    assert ([c] + rest)[1..] == rest;
  }

  /** The tail of text without white space has none either. */
  lemma NoSpaceTail(x: string)
    requires NoSpace(x) && x != []
    ensures NoSpace(x[1..]) && !IsSpace(x[0])
  {
    assert x[0] in x;
    assert forall c :: c in x[1..] ==> c in x;
  }

  /** Text without white space in front is kept as it is. */
  lemma {:induction false} DashSpacesPrefix(x: string, t: string)
    requires NoSpace(x)
    ensures DashSpaces(x + t) == x + DashSpaces(t)
    decreases |x|
  {
    if x == [] {
      assert x + t == t;
    } else {
      NoSpaceTail(x);
      assert x + t == [x[0]] + (x[1..] + t);
      DashSpacesCons(x[0], x[1..] + t);
      DashSpacesPrefix(x[1..], t);
      assert [x[0]] + (x[1..] + DashSpaces(t)) == x + DashSpaces(t);
    }
  }

  /** The replacement works run by run and in place: text without white
      space is kept, the white-space run after it becomes exactly one dash,
      and the rest is handled the same way. */
  lemma DashSpacesRun(x: string, w: string, y: string)
    requires NoSpace(x) && SpaceRun(w)
    requires y == [] || !IsSpace(y[0])
    ensures DashSpaces(x + w + y) == x + "-" + DashSpaces(y)
  {
    calc {
      DashSpaces(x + w + y);
      { assert x + w + y == x + (w + y); }
      DashSpaces(x + (w + y));
      { DashSpacesPrefix(x, w + y); }
      x + DashSpaces(w + y);
      { DashSpacesAtRun(w, y); }
      x + ("-" + DashSpaces(y));
      x + "-" + DashSpaces(y);
    }
  }

  /** `file.name.replace(/\s+/g, "-").toLowerCase()`: the dashed name with
      every ASCII capital lowered, so without white space and without
      capitals. */
  function SafeName(name: string): (r: string)
    ensures |r| <= |name|
    ensures forall c :: c in r ==> !IsSpace(c)
    ensures forall c :: c in r ==> !('A' <= c <= 'Z')
    ensures |r| == |DashSpaces(name)|
    ensures forall i :: 0 <= i < |r| ==> r[i] == LowerChar(DashSpaces(name)[i])
  {
    var d := DashSpaces(name);
    assert forall i :: 0 <= i < |d| ==> !IsSpace(Lower(d)[i]) by {
      forall i | 0 <= i < |d| ensures !IsSpace(Lower(d)[i]) {
        assert d[i] in d;
      }
    }
    Lower(d)
  }

  lemma SafeNameIdempotent(name: string)
    ensures SafeName(SafeName(name)) == SafeName(name)
  {
    var r := SafeName(name);
    DashSpacesOfSpaceless(r);
    var r2 := SafeName(r);
    assert |r2| == |r|;
    forall i | 0 <= i < |r| ensures r2[i] == r[i] {
      assert r2[i] == LowerChar(r[i]);
      assert r[i] == LowerChar(DashSpaces(name)[i]);
    }
  }

  /** `listings/${Date.now()}-${i}-${safeName}`. */
  function StoragePath(now: nat, i: nat, safeName: string): (r: string)
    ensures StartsWith(r, "listings/")
    ensures |r| >= |safeName| && r[|r| - |safeName|..] == safeName
  {
    "listings/" + (NatToString(now) + "-" + (NatToString(i) + "-" + safeName))
  }

  /** The first dash of `d + "-" + r` is the one after `d` when `d` has none. */
  lemma FirstDash(d: string, r: string)
    requires '-' !in d
    ensures '-' in d + "-" + r && IndexOf(d + "-" + r, '-') == |d|
  {
    var s := d + "-" + r;
    assert s[|d|] == '-';
    var i := IndexOf(s, '-');
    assert s[..|d|] == d;
  }

  /** Text without a dash, followed by a dash, can be split back. */
  lemma DashSplit(d1: string, r1: string, d2: string, r2: string)
    requires '-' !in d1 && '-' !in d2
    requires d1 + "-" + r1 == d2 + "-" + r2
    ensures d1 == d2 && r1 == r2
  {
    var a := d1 + "-" + r1;
    FirstDash(d1, r1);
    FirstDash(d2, r2);
    assert d1 == a[..|d1|] == d2;
    assert r1 == a[|d1| + 1..] == r2;
  }

  lemma NatToStringInjective(m: nat, n: nat)
    requires NatToString(m) == NatToString(n)
    ensures m == n
  {
    DigitsRoundTrip(m);
    DigitsRoundTrip(n);
  }

  /** Two entries of one request never share a storage path, whatever the
      clock reads: the entry's index is part of the path. */
  lemma StoragePathsDistinct(t1: nat, i1: nat, n1: string, t2: nat, i2: nat, n2: string)
    requires i1 != i2
    ensures StoragePath(t1, i1, n1) != StoragePath(t2, i2, n2)
  {
    if StoragePath(t1, i1, n1) == StoragePath(t2, i2, n2) {
      var p := StoragePath(t1, i1, n1);
      assert p[9..] == NatToString(t1) + "-" + (NatToString(i1) + "-" + n1);
      assert p[9..] == NatToString(t2) + "-" + (NatToString(i2) + "-" + n2);
      assert '-' !in NatToString(t1) && '-' !in NatToString(t2);
      DashSplit(NatToString(t1), NatToString(i1) + "-" + n1, NatToString(t2), NatToString(i2) + "-" + n2);
      assert '-' !in NatToString(i1) && '-' !in NatToString(i2);
      DashSplit(NatToString(i1), n1, NatToString(i2), n2);
      NatToStringInjective(i1, i2);
    }
  }

  /** The upload asked for the file at index `i`, read at time `now`: MIME
      type "image/jpeg" when the file has none, never overwriting. */
  function RequestFor(e: FormEntry, i: nat, now: nat): (q: UploadRequest)
    requires e.FileEntry?
    ensures q.bucket == "immonext" && !q.upsert
    ensures q.path == StoragePath(now, i, SafeName(e.name))
    ensures q.contentType == (if e.contentType == "" then "image/jpeg" else e.contentType)
  {
    UploadRequest(Bucket, StoragePath(now, i, SafeName(e.name)),
                  if e.contentType == "" then "image/jpeg" else e.contentType, false)
  }

  /** What the storage service answered for each entry: `None` for an entry
      that is not a file, otherwise the answer to the request for it, built
      with the time `clock(i)` read while handling entry `i`. */
  function Answers(entries: seq<FormEntry>, clock: nat -> nat, upload: UploadRequest -> UploadResult)
    : (r: seq<Option<UploadResult>>)
    ensures |r| == |entries|
    ensures forall i :: 0 <= i < |r| ==> (r[i].Some? <==> entries[i].FileEntry?)
    ensures forall i :: 0 <= i < |r| && entries[i].FileEntry? ==> r[i] == Some(AnswerFor(entries[i], i, clock, upload))
  {
    seq(|entries|, i requires 0 <= i < |entries| =>
      if entries[i].FileEntry? then Some(AnswerFor(entries[i], i, clock, upload)) else None)
  }

  /** The storage answer for the file entry `e` at index `i`. */
  function AnswerFor(e: FormEntry, i: nat, clock: nat -> nat, upload: UploadRequest -> UploadResult): UploadResult
    requires e.FileEntry?
  {
    upload(RequestFor(e, i, clock(i)))
  }

  /** The storage service refused the file at index `j`. */
  predicate Refused(answers: seq<Option<UploadResult>>, j: nat) {
    j < |answers| && answers[j].Some? && answers[j].value.StorageError?
  }

  /** Some file from index `i` on is refused. */
  predicate RefusedFrom(answers: seq<Option<UploadResult>>, i: nat)
    requires i <= |answers|
    decreases |answers| - i
  {
    i < |answers| && (Refused(answers, i) || RefusedFrom(answers, i + 1))
  }

  /** `RefusedFrom` holds exactly when some index from `i` on is refused. */
  lemma {:induction false} RefusedFromMeans(answers: seq<Option<UploadResult>>, i: nat)
    requires i <= |answers|
    ensures RefusedFrom(answers, i) <==> exists j :: i <= j < |answers| && Refused(answers, j)
    decreases |answers| - i
  {
    if i < |answers| {
      RefusedFromMeans(answers, i + 1);
      if Refused(answers, i) {
        assert RefusedFrom(answers, i);
      } else if RefusedFrom(answers, i + 1) {
        var j :| i + 1 <= j < |answers| && Refused(answers, j);
        assert RefusedFrom(answers, i);
      } else {
        assert forall j :: i <= j < |answers| ==> !Refused(answers, j);
      }
    }
  }

  /** The indices, from `i` on, of the entries that are files. */
  function FileIndices(answers: seq<Option<UploadResult>>, i: nat): (r: seq<nat>)
    requires i <= |answers|
    ensures |r| <= |answers| - i
    ensures forall k :: 0 <= k < |r| ==> i <= r[k] < |answers| && answers[r[k]].Some?
    ensures forall k, m :: 0 <= k < m < |r| ==> r[k] < r[m]
    decreases |answers| - i
  {
    if i == |answers| then []
    else if answers[i].Some? then [i] + FileIndices(answers, i + 1)
    else FileIndices(answers, i + 1)
  }

  /** No file is skipped: every file entry from `i` on is listed. */
  lemma {:induction false} FileIndicesComplete(answers: seq<Option<UploadResult>>, i: nat, j: nat)
    requires i <= j < |answers| && answers[j].Some?
    ensures j in FileIndices(answers, i)
    decreases |answers| - i
  {
    if i < j {
      FileIndicesComplete(answers, i + 1, j);
    }
  }

  function ErrorText(message: Option<string>): string {
    UploadErrorPrefix + OrElse(message, "erreur inconnue")
  }

  /** `urls` followed by whatever the rest produces; an error stays an
      error. */
  function Then(urls: seq<string>, rest: Body<seq<string>>): Body<seq<string>> {
    match rest
    case Failed(m) => Failed(m)
    case Done(v) => Done(urls + v)
  }

  /** The loop from index `i` on: entries that are not files are skipped,
      the first refused upload ends everything with its error, and
      otherwise there is one public URL per file. */
  function Uploads(answers: seq<Option<UploadResult>>, i: nat, publicUrl: string -> string)
    : (r: Body<seq<string>>)
    requires i <= |answers|
    ensures r.Failed? <==> RefusedFrom(answers, i)
    ensures r.Done? ==> |r.value| == |FileIndices(answers, i)|
    decreases |answers| - i
  {
    if i == |answers| then Done([])
    else match answers[i]
      case None => Uploads(answers, i + 1, publicUrl)
      case Some(StorageError(m)) => Failed(ErrorText(m))
      case Some(Stored(p)) => Then([publicUrl(p)], Uploads(answers, i + 1, publicUrl))
  }

  /** When every upload succeeds, the k-th URL is the public URL of the
      k-th file, in the order of the entries. */
  lemma UploadsInOrder(answers: seq<Option<UploadResult>>, i: nat, publicUrl: string -> string)
    requires i <= |answers|
    ensures var r := Uploads(answers, i, publicUrl);
      r.Done? ==>
        && var files := FileIndices(answers, i);
        && forall k :: 0 <= k < |files| ==>
             answers[files[k]].Some? && answers[files[k]].value.Stored?
             && r.value[k] == publicUrl(answers[files[k]].value.path)
  {
    if Uploads(answers, i, publicUrl).Done? {
      forall k | 0 <= k < |FileIndices(answers, i)|
        ensures answers[FileIndices(answers, i)[k]].value.Stored?
        ensures Uploads(answers, i, publicUrl).value[k]
                == publicUrl(answers[FileIndices(answers, i)[k]].value.path)
      {
        UploadAt(answers, i, publicUrl, k);
      }
    }
  }

  /** The k-th URL of a successful loop from index `i`. */
  lemma {:induction false} UploadAt(answers: seq<Option<UploadResult>>, i: nat, publicUrl: string -> string, k: nat)
    requires i <= |answers| && Uploads(answers, i, publicUrl).Done?
    requires k < |FileIndices(answers, i)|
    ensures answers[FileIndices(answers, i)[k]].value.Stored?
    ensures Uploads(answers, i, publicUrl).value[k] == publicUrl(answers[FileIndices(answers, i)[k]].value.path)
    decreases |answers| - i
  {
    var here := Uploads(answers, i, publicUrl);
    var rest := Uploads(answers, i + 1, publicUrl);
    var files := FileIndices(answers, i);
    var later := FileIndices(answers, i + 1);
    if answers[i].Some? {
      var url := publicUrl(answers[i].value.path);
      assert here == Then([url], rest);
      assert rest.Done? && here.value == [url] + rest.value;
      assert files == [i] + later;
      if k > 0 {
        UploadAt(answers, i + 1, publicUrl, k - 1);
        assert files[k] == later[k - 1];
        assert here.value[k] == rest.value[k - 1];
      }
    } else {
      assert here == rest && files == later;
      UploadAt(answers, i + 1, publicUrl, k);
    }
  }

  /** One step of the loop, with the URLs gathered so far in front: a
      non-file changes nothing, a stored file moves its URL into the
      gathered ones, a refused file ends with its error. */
  lemma {:induction false} LoopStep(answers: seq<Option<UploadResult>>, i: nat, urls: seq<string>,
                                    publicUrl: string -> string)
    requires i < |answers|
    ensures answers[i].None? ==>
      Then(urls, Uploads(answers, i, publicUrl)) == Then(urls, Uploads(answers, i + 1, publicUrl))
    ensures answers[i].Some? && answers[i].value.Stored? ==>
      Then(urls, Uploads(answers, i, publicUrl))
      == Then(urls + [publicUrl(answers[i].value.path)], Uploads(answers, i + 1, publicUrl))
    ensures answers[i].Some? && answers[i].value.StorageError? ==>
      Then(urls, Uploads(answers, i, publicUrl)) == Failed(ErrorText(answers[i].value.message))
  {
    var rest := Uploads(answers, i + 1, publicUrl);
    if answers[i].Some? && answers[i].value.Stored? && rest.Done? {
      var url := publicUrl(answers[i].value.path);
      assert urls + ([url] + rest.value) == (urls + [url]) + rest.value;
    }
  }

  /** Before the loop nothing is gathered; after it nothing is left. */
  lemma LoopEnds(answers: seq<Option<UploadResult>>, urls: seq<string>, publicUrl: string -> string)
    ensures Then([], Uploads(answers, 0, publicUrl)) == Uploads(answers, 0, publicUrl)
    ensures Then(urls, Uploads(answers, |answers|, publicUrl)) == Done(urls)
  {
    var whole := Uploads(answers, 0, publicUrl);
    if whole.Done? {
      assert [] + whole.value == whole.value;
    }
    assert urls + [] == urls;
  }

  /** The upload loop over all entries; it stops at the first storage
      error. */
  method UploadAll(entries: seq<FormEntry>, clock: nat -> nat, upload: UploadRequest -> UploadResult,
                   publicUrl: string -> string)
    returns (body: Body<seq<string>>)
    ensures body == Uploads(Answers(entries, clock, upload), 0, publicUrl)
  {
    ghost var answers := Answers(entries, clock, upload);
    var urls: seq<string> := [];
    var i := 0;
    LoopEnds(answers, urls, publicUrl);
    while i < |entries|
      invariant 0 <= i <= |entries|
      invariant Uploads(answers, 0, publicUrl) == Then(urls, Uploads(answers, i, publicUrl))
    {
      LoopStep(answers, i, urls, publicUrl);
      if entries[i].FileEntry? {
        match AnswerFor(entries[i], i, clock, upload)
        case StorageError(m) =>
          return Failed(ErrorText(m));
        case Stored(p) =>
          urls := urls + [publicUrl(p)];
      }
      i := i + 1;
    }
    LoopEnds(answers, urls, publicUrl);
    return Done(urls);
  }

  /** `POST(req)` for the "files" entries of the form: 400 when there are
      none, otherwise the uploads in order, 500 on the first storage error
      and 200 with the URLs when every file was stored. */
  method Post(entries: seq<FormEntry>, clock: nat -> nat, upload: UploadRequest -> UploadResult,
              publicUrl: string -> string)
    returns (status: nat, body: Body<seq<string>>)
    ensures entries == [] ==> status == BadRequest && body == Failed(NoFiles)
    ensures entries != [] ==> body == Uploads(Answers(entries, clock, upload), 0, publicUrl)
    ensures entries != [] ==> (status == Ok <==> body.Done?) && (status == ServerError <==> body.Failed?)
    ensures body.Done? ==> |body.value| <= |entries|
  {
    if entries == [] {
      return BadRequest, Failed(NoFiles);
    }
    body := UploadAll(entries, clock, upload, publicUrl);
    status := if body.Done? then Ok else ServerError;
  }
}
