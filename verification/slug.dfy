/** `slugify`, which the registration and agency routes use to derive an
    agency's URL slug from its name: trim, lower-case, drop diacritics,
    turn every run of characters outside a-z and 0-9 into one dash, and
    remove a leading and a trailing dash. */
module Slug {
  import opened Values
  import opened Strings

  /** The characters a slug keeps as they are. */
  predicate IsSlugChar(c: char) {
    ('a' <= c <= 'z') || ('0' <= c <= '9')
  }

  /** No dash directly follows another dash. */
  predicate NoDoubleDash(s: string) {
    forall i :: 0 <= i < |s| - 1 ==> !(s[i] == '-' && s[i + 1] == '-')
  }

  /** Only a-z, 0-9 and single dashes. */
  predicate SlugShaped(s: string) {
    && (forall c :: c in s ==> IsSlugChar(c) || c == '-')
    && NoDoubleDash(s)
  }

  /** What `slugify` promises of its result. */
  predicate IsSlug(s: string) {
    && SlugShaped(s)
    && (|s| > 0 ==> s[0] != '-' && s[|s| - 1] != '-')
  }

  /** Drops the leading characters of `s` that a slug does not keep. */
  function DropRun(s: string): (r: string)
    ensures |r| <= |s| && r == s[|s| - |r|..]
    ensures r == [] || IsSlugChar(r[0])
  {
    if s != [] && !IsSlugChar(s[0]) then
      var r := DropRun(s[1..]);
      assert s[1..][|s| - 1 - |r|..] == s[|s| - |r|..];
      r
    else s
  }

  /** `.replace(/[^a-z0-9]+/g, "-")`. */
  function Collapse(s: string): (r: string)
    ensures SlugShaped(r)
    ensures |s| > 0 ==> |r| > 0 && (IsSlugChar(s[0]) ==> r[0] == s[0]) && (!IsSlugChar(s[0]) ==> r[0] == '-')
    ensures |s| == 0 ==> r == []
    decreases |s|
  {
    if s == [] then []
    else if IsSlugChar(s[0]) then
      var t := Collapse(s[1..]);
      ConsSlugShaped(s[0], t);
      [s[0]] + t
    else
      var t := Collapse(DropRun(s[1..]));
      ConsSlugShaped('-', t);
      ['-'] + t
  }

  /** A slug character, or a dash not followed by a dash, may head a
      slug-shaped text. */
  lemma ConsSlugShaped(c: char, t: string)
    requires SlugShaped(t)
    requires IsSlugChar(c) || c == '-'
    requires c == '-' ==> t == [] || t[0] != '-'
    ensures SlugShaped([c] + t)
  {
    var r := [c] + t;
    forall i | 0 <= i < |r| - 1 ensures !(r[i] == '-' && r[i + 1] == '-') {
      if i > 0 {
        assert r[i] == t[i - 1] && r[i + 1] == t[i];
      }
    }
  }

  /** `.replace(/(^-|-$)/g, "")`: one leading and one trailing dash removed. */
  function TrimDashes(s: string): (r: string)
    ensures |s| >= 2 && s[0] == '-' && s[|s| - 1] == '-' ==> s == "-" + r + "-"
    ensures |s| >= 1 && s[0] == '-' && s[|s| - 1] != '-' ==> s == "-" + r
    ensures |s| >= 1 && s[0] != '-' && s[|s| - 1] == '-' ==> s == r + "-"
    ensures (|s| == 0 || (s[0] != '-' && s[|s| - 1] != '-')) ==> r == s
    ensures s == "-" ==> r == ""
  {
    var a := if |s| > 0 && s[0] == '-' then s[1..] else s;
    if |a| > 0 && a[|a| - 1] == '-' then a[..|a| - 1] else a
  }

  /** The pipeline `slugify` runs on the text of its argument. Unicode
      normalisation to NFD is taken to be the identity, that is the input is
      taken to be already decomposed. */
  function SlugOf(text: string): string {
    TrimDashes(Collapse(StripMarks(Lower(Trim(text)))))
  }

  /** `slugify(value)`: `String(value || "")` put through the pipeline. */
  function Slugify(value: Option<string>): (r: string)
    ensures IsSlug(r)
    ensures !Present(value) ==> r == ""
    ensures SlugChars(r) == SlugChars(StripMarks(Lower(Trim(OrElse(value, "")))))
  {
    var text := OrElse(value, "");
    TrimDashesOfSlugShaped(Collapse(StripMarks(Lower(Trim(text)))));
    SlugOfChars(text);
    SlugOf(text)
  }

  /** Only a-z and 0-9. */
  predicate AllSlugChars(x: string) {
    forall i :: 0 <= i < |x| ==> IsSlugChar(x[i])
  }

  /** Not one character from a-z or 0-9. */
  predicate NoSlugChars(w: string) {
    forall i :: 0 <= i < |w| ==> !IsSlugChar(w[i])
  }

  /** The characters of `s` from a-z and 0-9, in order. */
  function SlugChars(s: string): (r: string)
    ensures AllSlugChars(r)
    ensures |r| <= |s|
  {
    if s == [] then []
    else if IsSlugChar(s[0]) then [s[0]] + SlugChars(s[1..])
    else SlugChars(s[1..])
  }

  lemma {:induction false} SlugCharsAppend(a: string, b: string)
    ensures SlugChars(a + b) == SlugChars(a) + SlugChars(b)
    decreases |a|
  {
    if a == [] {
      assert a + b == b;
    } else {
      var ab := a + b;
      assert ab[0] == a[0] && ab[1..] == a[1..] + b;
      SlugCharsAppend(a[1..], b);
    }
  }

  /** `DropRun` removes only characters a slug does not keep. */
  lemma {:induction false} DropRunSlugChars(s: string)
    ensures SlugChars(DropRun(s)) == SlugChars(s)
    decreases |s|
  {
    if s != [] && !IsSlugChar(s[0]) {
      DropRunSlugChars(s[1..]);
    }
  }

  /** Collapsing keeps every a-z and 0-9 character, in order: only the
      characters outside that range are replaced. */
  lemma {:induction false} CollapseSlugChars(s: string)
    ensures SlugChars(Collapse(s)) == SlugChars(s)
    decreases |s|
  {
    if s != [] {
      if IsSlugChar(s[0]) {
        var t := Collapse(s[1..]);
        CollapseSlugChars(s[1..]);
        var ct := [s[0]] + t;
        assert ct[0] == s[0] && ct[1..] == t;
      } else {
        var d := DropRun(s[1..]);
        var t := Collapse(d);
        CollapseSlugChars(d);
        DropRunSlugChars(s[1..]);
        var ct := ['-'] + t;
        assert ct[0] == '-' && ct[1..] == t;
      }
    }
  }

  /** Removing the end dashes removes no a-z or 0-9 character. */
  lemma TrimDashesSlugChars(s: string)
    ensures SlugChars(TrimDashes(s)) == SlugChars(s)
  {
    var r := TrimDashes(s);
    assert SlugChars("-") == [];
    if |s| >= 2 && s[0] == '-' && s[|s| - 1] == '-' {
      SlugCharsAppend("-", r);
      SlugCharsAppend("-" + r, "-");
    } else if |s| >= 1 && s[0] == '-' && s[|s| - 1] != '-' {
      SlugCharsAppend("-", r);
    } else if |s| >= 1 && s[0] != '-' && s[|s| - 1] == '-' {
      SlugCharsAppend(r, "-");
    }
  }

  /** The slug holds exactly the a-z and 0-9 characters of the trimmed,
      lower-cased text without its diacritics, in the same order; every
      other character of the slug is a dash. */
  lemma SlugOfChars(text: string)
    ensures SlugChars(SlugOf(text)) == SlugChars(StripMarks(Lower(Trim(text))))
  {
    var u := StripMarks(Lower(Trim(text)));
    CollapseSlugChars(u);
    TrimDashesSlugChars(Collapse(u));
  }

  /** A run of characters outside a-z and 0-9 is dropped up to the next
      slug character. */
  lemma {:induction false} DropRunOfRun(w: string, y: string)
    requires NoSlugChars(w)
    requires y == [] || IsSlugChar(y[0])
    ensures DropRun(w + y) == y
    decreases |w|
  {
    var wy := w + y;
    if w == [] {
      assert wy == y;
    } else {
      assert wy[0] == w[0] && wy[1..] == w[1..] + y;
      DropRunOfRun(w[1..], y);
    }
  }

  /** A non-empty run of characters outside a-z and 0-9 becomes one dash. */
  lemma CollapseAtRun(w: string, y: string)
    requires w != [] && NoSlugChars(w)
    requires y == [] || IsSlugChar(y[0])
    ensures Collapse(w + y) == "-" + Collapse(y)
  {
    var wy := w + y;
    assert wy[0] == w[0] && wy[1..] == w[1..] + y;
    DropRunOfRun(w[1..], y);
  }

  /** Characters from a-z and 0-9 are kept as they are. */
  lemma {:induction false} CollapsePrefix(x: string, t: string)
    requires AllSlugChars(x)
    ensures Collapse(x + t) == x + Collapse(t)
    decreases |x|
  {
    var xt := x + t;
    if x == [] {
      assert xt == t;
    } else {
      assert xt[0] == x[0] && xt[1..] == x[1..] + t;
      CollapsePrefix(x[1..], t);
      calc {
        Collapse(xt);
        [x[0]] + Collapse(x[1..] + t);
        [x[0]] + (x[1..] + Collapse(t));
        ([x[0]] + x[1..]) + Collapse(t);
        { assert [x[0]] + x[1..] == x; }
        x + Collapse(t);
      }
    }
  }

  /** `.replace(/[^a-z0-9]+/g, "-")` on one run: the slug characters before
      it are kept, the run becomes exactly one dash, and the rest is
      collapsed in its turn. */
  lemma CollapseRun(x: string, w: string, y: string)
    requires AllSlugChars(x)
    requires w != [] && NoSlugChars(w)
    requires y == [] || IsSlugChar(y[0])
    ensures Collapse(x + w + y) == x + "-" + Collapse(y)
  {
    calc {
      Collapse(x + w + y);
      { assert x + w + y == x + (w + y); }
      Collapse(x + (w + y));
      { CollapsePrefix(x, w + y); }
      x + Collapse(w + y);
      { CollapseAtRun(w, y); }
      x + ("-" + Collapse(y));
      x + "-" + Collapse(y);
    }
  }

  lemma TrimDashesOfSlugShaped(s: string)
    requires SlugShaped(s)
    ensures IsSlug(TrimDashes(s))
  {
    var r := TrimDashes(s);
    var lo := if |s| > 0 && s[0] == '-' then 1 else 0;
    var a := s[lo..];
    var hi := if |a| > 0 && a[|a| - 1] == '-' then |s| - 1 else |s|;
    assert r == s[lo..hi];
    SlugShapedSlice(s, lo, hi);
    if |r| > 0 {
      assert r[0] == s[lo] && r[|r| - 1] == s[hi - 1];
      var j := hi - 1;
      assert lo == 1 ==> s[0] == '-' && s[1] != '-';
      assert hi < |s| ==> s[j + 1] == '-' && s[j] != '-';
      assert hi == |s| ==> a[|a| - 1] == s[j];
    }
  }

  /** Any slice of a slug-shaped text is slug-shaped. */
  lemma SlugShapedSlice(s: string, lo: int, hi: int)
    requires SlugShaped(s) && 0 <= lo <= hi <= |s|
    ensures SlugShaped(s[lo..hi])
  {
    var t := s[lo..hi];
    assert forall i :: 0 <= i < |t| ==> t[i] == s[lo + i];
    forall c | c in t ensures IsSlugChar(c) || c == '-' {
      var i :| 0 <= i < |t| && t[i] == c;
      assert s[lo + i] in s;
    }
    forall i | 0 <= i < |t| - 1 ensures !(t[i] == '-' && t[i + 1] == '-') {
      assert t[i] == s[lo + i] && t[i + 1] == s[lo + i + 1];
    }
  }

  lemma {:induction false} CollapseOfSlugShaped(s: string)
    requires SlugShaped(s)
    ensures Collapse(s) == s
    decreases |s|
  {
    if s != [] {
      SlugShapedTail(s);
      if IsSlugChar(s[0]) {
        CollapseOfSlugShaped(s[1..]);
      } else {
        if |s| > 1 {
          assert s[1] in s;
          assert IsSlugChar(s[1]);
        }
        assert DropRun(s[1..]) == s[1..];
        CollapseOfSlugShaped(s[1..]);
      }
    }
  }

  lemma {:induction false} StripMarksOfSlugShaped(s: string)
    requires SlugShaped(s)
    ensures StripMarks(s) == s
    decreases |s|
  {
    if s != [] {
      SlugShapedTail(s);
      assert !IsMark(s[0]);
      StripMarksOfSlugShaped(s[1..]);
      assert [s[0]] + s[1..] == s;
    }
  }

  /** The first character of a slug-shaped text is a slug character or a
      dash, and the rest is slug-shaped too. */
  lemma SlugShapedTail(s: string)
    requires SlugShaped(s) && s != []
    ensures IsSlugChar(s[0]) || s[0] == '-'
    ensures SlugShaped(s[1..])
  {
    assert s[0] in s;
    assert forall c :: c in s[1..] ==> c in s;
    var rest := s[1..];
    assert forall i :: 0 <= i < |rest| ==> rest[i] == s[i + 1];
  }

  lemma LowerOfSlugShaped(s: string)
    requires SlugShaped(s)
    ensures Lower(s) == s
  {
    forall i | 0 <= i < |s| ensures Lower(s)[i] == s[i] {
      assert s[i] in s;
    }
  }

  lemma TrimOfSlug(s: string)
    requires IsSlug(s)
    ensures Trim(s) == s
  {
    if s != "" {
      assert s[0] in s && s[|s| - 1] in s;
      SlugCharNotSpace(s[0]);
      SlugCharNotSpace(s[|s| - 1]);
      assert !IsSpace(s[0]) && !IsSpace(s[|s| - 1]);
      TrimOfTrimmed(s);
    }
  }

  /** A character a slug may hold is not white space. */
  lemma SlugCharNotSpace(c: char)
    requires IsSlugChar(c) || c == '-'
    ensures !IsSpace(c)
  {
  }

  lemma SlugOfSlug(s: string)
    requires IsSlug(s)
    ensures SlugOf(s) == s
  {
    TrimOfSlug(s);
    LowerOfSlugShaped(s);
    StripMarksOfSlugShaped(s);
    CollapseOfSlugShaped(s);
  }

  /** A non-empty slug is its own slug. */
  lemma SlugFixedPoint(s: string)
    requires IsSlug(s) && s != ""
    ensures Slugify(Some(s)) == s
  {
    SlugOfSlug(s);
    assert OrElse(Some(s), "") == s;
  }

  /** An agency name with a capital letter and a space. */
  lemma SlugifyExample(name: string)
    requires name == "Agence Lyon"
    ensures Slugify(Some(name)) == "agence-lyon"
  {
    var c := Collapse(StripMarks(Lower(Trim(name))));
    assert c == "agence-lyon" by {
      ExampleLowered(name);
      ExampleCollapsed(StripMarks(Lower(Trim(name))));
    }
    assert TrimDashes(c) == c by {
      ExampleTrimmed(c);
    }
    SlugifyText(name);
  }

  /** A name that is not empty is slugified as its own text. */
  lemma SlugifyText(name: string)
    requires name != ""
    ensures Slugify(Some(name)) == SlugOf(name)
  {
    assert OrElse(Some(name), "") == name;
  }

  /** The collapsed example has no dash to trim. */
  lemma ExampleTrimmed(c: string)
    requires c == "agence-lyon"
    ensures TrimDashes(c) == c
  {
    assert c[0] != '-' && c[|c| - 1] != '-';
  }

  /** The example name trimmed, lower-cased and without marks. */
  lemma ExampleLowered(name: string)
    requires name == "Agence Lyon"
    ensures StripMarks(Lower(Trim(name))) == "agence lyon"
  {
    assert IsTrimmed(name);
    assert Lower(name) == "agence lyon";
    StripMarksNoMarks("agence lyon");
  }

  /** The space of the example becomes one dash. */
  lemma ExampleCollapsed(s: string)
    requires s == "agence lyon"
    ensures Collapse(s) == "agence-lyon"
  {
    var x, w, y := "agence", " ", "lyon";
    ExampleWords();
    assert s == x + w + y;
    CollapseRun(x, w, y);
    CollapsePrefix(y, "");
    assert y + "" == y;
  }

  /** The pieces of the example name, by kind of character. */
  lemma ExampleWords()
    ensures AllSlugChars("agence") && AllSlugChars("lyon") && NoSlugChars(" ")
    ensures "agence" + "-" + "lyon" == "agence-lyon"
  {
  }

  /** `slugify` applied to its own output changes nothing. */
  lemma SlugifyIdempotent(value: Option<string>)
    ensures Slugify(Some(Slugify(value))) == Slugify(value)
  {
    var s := Slugify(value);
    if s != "" {
      SlugFixedPoint(s);
    }
  }
}
