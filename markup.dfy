/** strip_tags: turn HTML line breaks into newlines and delete every other
    tag. The source does this with two `str.replace` passes followed by
    `re.sub('<.*?>', '', ...)`; here both are written as scanners over the
    string. */
module Markup {
  import opened Wrappers

  /** Python's `s.startswith(pat)`, compared one character at a time. */
  function StartsWith(s: string, pat: string): (r: bool)
    ensures r <==> pat <= s
  {
    pat == [] || (s != [] && s[0] == pat[0] && StartsWith(s[1..], pat[1..]))
  }

  /** Python's `s.replace(pat, rep)`: scanning from the left, each leftmost
      occurrence of `pat` that does not overlap an earlier one becomes `rep`. */
  function ReplaceAll(s: string, pat: string, rep: string): string
    requires |pat| > 0
    decreases |s|
  {
    if StartsWith(s, pat) then rep + ReplaceAll(s[|pat|..], pat, rep)
    else if s == [] then []
    else [s[0]] + ReplaceAll(s[1..], pat, rep)
  }

  /** Python's `s.count(pat)`: how many occurrences the same left-to-right,
      non-overlapping scan finds. */
  function Occurrences(s: string, pat: string): nat
    requires |pat| > 0
    decreases |s|
  {
    if StartsWith(s, pat) then 1 + Occurrences(s[|pat|..], pat)
    else if s == [] then 0
    else Occurrences(s[1..], pat)
  }

  /** How many times the character `c` occurs in `s`. */
  function Count(c: char, s: string): nat
  {
    if s == [] then 0 else (if s[0] == c then 1 else 0) + Count(c, s[1..])
  }

  /** The end of the tag whose `<` stands just before `s`: the index of the
      first `>` in `s`, provided no newline comes before it. In Python's `re`
      the `.` of `<.*?>` does not match a newline, and `*?` takes the
      shortest match, so this is exactly where the lazy match ends. */
  function CloseAt(s: string): (r: Option<nat>)
    ensures r.Some? ==> r.value < |s| && s[r.value] == '>'
    ensures r.Some? ==> forall j :: 0 <= j < r.value ==> s[j] != '>' && s[j] != '\n'
    ensures r.None? ==> forall k :: 0 <= k < |s| && s[k] == '>' ==> exists j :: 0 <= j < k && s[j] == '\n'
  {
    if s == [] || s[0] == '\n' then None
    else if s[0] == '>' then Some(0)
    else match CloseAt(s[1..])
      case None => None
      case Some(k) => Some(k + 1)
  }

  /** `re.sub('<.*?>', '', s)`: at each position, a `<` whose tag closes on
      the same line is deleted together with everything up to and including
      the closing `>`; any other character is kept and the scan moves on. */
  function RemoveTags(s: string): (r: string)
    ensures |r| <= |s|
    decreases |s|
  {
    if s == [] then []
    else if s[0] == '<' && CloseAt(s[1..]).Some? then RemoveTags(s[CloseAt(s[1..]).value + 2..])
    else [s[0]] + RemoveTags(s[1..])
  }

  /** No `<` in `r` is followed by a `>` before the next newline: nothing in
      `r` is a tag any more. */
  predicate TagFree(r: string)
  {
    forall i :: 0 <= i < |r| && r[i] == '<' ==> CloseAt(r[i + 1..]).None?
  }

  /** misc.py's strip_tags. */
  function StripTags(s: string): string
  {
    RemoveTags(ReplaceAll(ReplaceAll(s, "<br />", "\n"), "<br>", "\n"))
  }

  // ---------------------------------------------------------------------
  // Counting lemmas

  lemma {:induction false} CountConcat(c: char, a: string, b: string)
    ensures Count(c, a + b) == Count(c, a) + Count(c, b)
  {
    if a == [] {
      assert a + b == b;
    } else {
      assert (a + b)[1..] == a[1..] + b;
      CountConcat(c, a[1..], b);
    }
  }

  lemma {:induction false} CountAbsent(c: char, s: string)
    requires c !in s
    ensures Count(c, s) == 0
  {
    if s != [] {
      assert c !in s[1..];
      CountAbsent(c, s[1..]);
    }
  }

  // ---------------------------------------------------------------------
  // str.replace

  /** One more replacement adds one more `k`. */
  lemma MulSucc(n: nat, k: nat)
    ensures (1 + n) * k == k + n * k
  {
  }

  /** Each replacement changes the length by |rep| - |pat| and nothing else
      changes it. */
  lemma {:induction false} ReplaceAllLength(s: string, pat: string, rep: string)
    requires |pat| > 0
    ensures |ReplaceAll(s, pat, rep)| + Occurrences(s, pat) * |pat| == |s| + Occurrences(s, pat) * |rep|
    decreases |s|
  {
    if pat <= s {
      var rest := s[|pat|..];
      ReplaceAllLength(rest, pat, rep);
      var n := Occurrences(rest, pat);
      MulSucc(n, |pat|);
      MulSucc(n, |rep|);
    } else if s != [] {
      ReplaceAllLength(s[1..], pat, rep);
    }
  }

  /** A character that the pattern does not contain is never lost: its count
      grows by exactly its count in `rep` per replacement. */
  lemma {:induction false} ReplaceAllCount(c: char, s: string, pat: string, rep: string)
    requires |pat| > 0 && c !in pat
    ensures Count(c, ReplaceAll(s, pat, rep)) == Count(c, s) + Occurrences(s, pat) * Count(c, rep)
    decreases |s|
  {
    if pat <= s {
      var rest := s[|pat|..];
      assert s == pat + rest;
      CountConcat(c, pat, rest);
      CountAbsent(c, pat);
      CountConcat(c, rep, ReplaceAll(rest, pat, rep));
      ReplaceAllCount(c, rest, pat, rep);
      var n := Occurrences(rest, pat);
      MulSucc(n, Count(c, rep));
    } else if s != [] {
      assert ([s[0]] + ReplaceAll(s[1..], pat, rep))[1..] == ReplaceAll(s[1..], pat, rep);
      ReplaceAllCount(c, s[1..], pat, rep);
    }
  }

  /** A string in which the pattern's first character never occurs is left
      unchanged. */
  lemma {:induction false} ReplaceAllAbsent(s: string, pat: string, rep: string)
    requires |pat| > 0 && pat[0] !in s
    ensures ReplaceAll(s, pat, rep) == s
    decreases |s|
  {
    if s != [] {
      assert s[0] != pat[0];
      assert pat[0] !in s[1..];
      ReplaceAllAbsent(s[1..], pat, rep);
    }
  }

  // ---------------------------------------------------------------------
  // The tag scanner

  /** Text after a closed tag does not move its end. */
  lemma {:induction false} CloseAtPrefix(a: string, b: string)
    requires CloseAt(a).Some?
    ensures CloseAt(a + b) == CloseAt(a)
  {
    assert (a + b)[0] == a[0];
    if a[0] != '>' {
      assert (a + b)[1..] == a[1..] + b;
      CloseAtPrefix(a[1..], b);
    }
  }

  /** Deleting tags never creates a tag end that the input did not have
      before its next newline. */
  lemma {:induction false} RemoveTagsNoNewClose(t: string)
    ensures CloseAt(RemoveTags(t)).Some? ==> CloseAt(t).Some?
    decreases |t|
  {
    if t != [] && !(t[0] == '<' && CloseAt(t[1..]).Some?) {
      var r := RemoveTags(t);
      assert r == [t[0]] + RemoveTags(t[1..]);
      assert r[1..] == RemoveTags(t[1..]);
      RemoveTagsNoNewClose(t[1..]);
    }
  }

  lemma TagFreeSuffix(r: string)
    requires |r| > 0 && TagFree(r)
    ensures TagFree(r[1..])
  {
    forall i | 0 <= i < |r[1..]| && r[1..][i] == '<'
      ensures CloseAt(r[1..][i + 1..]).None?
    {
      assert r[1..][i + 1..] == r[i + 2..];
      assert r[i + 1] == '<';
    }
  }

  /** What RemoveTags returns holds no tag. */
  lemma {:induction false} RemoveTagsTagFree(s: string)
    ensures TagFree(RemoveTags(s))
    decreases |s|
  {
    if s == [] {
    } else if s[0] == '<' && CloseAt(s[1..]).Some? {
      RemoveTagsTagFree(s[CloseAt(s[1..]).value + 2..]);
    } else {
      var x := RemoveTags(s[1..]);
      var r := RemoveTags(s);
      assert r == [s[0]] + x;
      RemoveTagsTagFree(s[1..]);
      RemoveTagsNoNewClose(s[1..]);
      forall i | 0 <= i < |r| && r[i] == '<'
        ensures CloseAt(r[i + 1..]).None?
      {
        if i == 0 {
          assert r[1..] == x;
        } else {
          assert r[i] == x[i - 1];
          assert r[i + 1..] == x[i..];
        }
      }
    }
  }

  /** A tag-free string passes through RemoveTags unchanged. */
  lemma {:induction false} RemoveTagsOfTagFree(r: string)
    requires TagFree(r)
    ensures RemoveTags(r) == r
    decreases |r|
  {
    if r != [] {
      assert r[0] == '<' ==> CloseAt(r[1..]).None?;
      TagFreeSuffix(r);
      RemoveTagsOfTagFree(r[1..]);
      assert r == [r[0]] + r[1..];
    }
  }

  /** Tags never span a newline, so RemoveTags keeps every newline. */
  lemma {:induction false} RemoveTagsNewlines(s: string)
    ensures Count('\n', RemoveTags(s)) == Count('\n', s)
    decreases |s|
  {
    if s == [] {
    } else if s[0] == '<' && CloseAt(s[1..]).Some? {
      var k := CloseAt(s[1..]).value;
      var tag, rest := s[..k + 2], s[k + 2..];
      assert s == tag + rest;
      assert '\n' !in tag by {
        forall j | 0 <= j < |tag| ensures tag[j] != '\n' {
          if j > 0 { assert tag[j] == s[1..][j - 1]; }
        }
      }
      CountConcat('\n', tag, rest);
      CountAbsent('\n', tag);
      RemoveTagsNewlines(rest);
    } else {
      assert ([s[0]] + RemoveTags(s[1..]))[1..] == RemoveTags(s[1..]);
      RemoveTagsNewlines(s[1..]);
    }
  }

  /** A tag-free string contains neither break tag, so replacing a pattern
      that is itself a tag changes nothing. */
  lemma {:induction false} ReplaceAllOfTagFree(r: string, pat: string, rep: string)
    requires |pat| > 1 && pat[0] == '<' && CloseAt(pat[1..]).Some?
    requires TagFree(r)
    ensures ReplaceAll(r, pat, rep) == r
    decreases |r|
  {
    if pat <= r {
      assert r[0] == '<';
      assert r[1..] == pat[1..] + r[|pat|..];
      CloseAtPrefix(pat[1..], r[|pat|..]);
      assert false;
    } else if r != [] {
      TagFreeSuffix(r);
      ReplaceAllOfTagFree(r[1..], pat, rep);
      assert r == [r[0]] + r[1..];
    }
  }

  // ---------------------------------------------------------------------
  // Properties of strip_tags

  /** Text without `<` in front of the rest is copied through a replace
      pass untouched. */
  lemma {:induction false} ReplaceAllPlain(a: string, b: string, pat: string, rep: string)
    requires |pat| > 0 && pat[0] !in a
    ensures ReplaceAll(a + b, pat, rep) == a + ReplaceAll(b, pat, rep)
    decreases |a|
  {
    if a != [] {
      assert (a + b)[0] == a[0] != pat[0];
      assert (a + b)[1..] == a[1..] + b;
      assert pat[0] !in a[1..];
      ReplaceAllPlain(a[1..], b, pat, rep);
      assert a == [a[0]] + a[1..];
    } else {
      assert a + b == b;
    }
  }

  /** Text without `<` in front of the rest is copied through RemoveTags
      untouched. */
  lemma {:induction false} RemoveTagsPlain(a: string, b: string)
    requires '<' !in a
    ensures RemoveTags(a + b) == a + RemoveTags(b)
    decreases |a|
  {
    if a != [] {
      assert (a + b)[0] == a[0] != '<';
      assert (a + b)[1..] == a[1..] + b;
      assert '<' !in a[1..];
      RemoveTagsPlain(a[1..], b);
      assert a == [a[0]] + a[1..];
    } else {
      assert a + b == b;
    }
  }

  /** A complete tag in front of the rest is deleted whatever follows it. */
  lemma RemoveTagsTag(t: string, b: string)
    requires |t| >= 2 && t[0] == '<' && CloseAt(t[1..]) == Some(|t| - 2)
    ensures RemoveTags(t + b) == RemoveTags(b)
  {
    assert (t + b)[1..] == t[1..] + b;
    CloseAtPrefix(t[1..], b);
    assert (t + b)[|t|..] == b;
  }

  /** For any text, a bold run followed by
      a break and more text loses its tags and gets a newline for the
      break. */
  lemma StripTagsBoldBreak(x: string, y: string)
    requires '<' !in x && '<' !in y
    ensures StripTags("<b>" + x + ("</b><br>" + y)) == x + ("\n" + y)
  {
    BoldBreakNoSlashBreak(x, y);
    BoldBreakBreak(x, y);
    BoldBreakTags(x, y);
  }

  /** One step of a replace pass at a position where the pattern does not
      start: the character is copied. */
  lemma ReplaceAllSkip(s: string, pat: string, rep: string)
    requires |pat| > 0 && s != [] && !(pat <= s)
    ensures ReplaceAll(s, pat, rep) == [s[0]] + ReplaceAll(s[1..], pat, rep)
  {
  }

  /** One step of a replace pass where the pattern starts: it becomes `rep`. */
  lemma ReplaceAllHit(pat: string, b: string, rep: string)
    requires |pat| > 0
    ensures ReplaceAll(pat + b, pat, rep) == rep + ReplaceAll(b, pat, rep)
  {
    assert pat <= pat + b;
    assert (pat + b)[|pat|..] == b;
  }

  /** `"<b>"` does not start a break tag of either spelling. */
  lemma BoldOpenIsNoBreak(x: string, w: string, pat: string)
    requires pat == "<br />" || pat == "<br>"
    requires '<' !in x
    ensures ReplaceAll("<b>" + x + w, pat, "\n") == "<b>" + x + ReplaceAll(w, pat, "\n")
  {
    var s := "<b>" + x + w;
    assert s[2] != pat[2];
    ReplaceAllSkip(s, pat, "\n");
    assert s[1..] == "b>" + x + w;
    ReplaceAllPlain("b>" + x, w, pat, "\n");
  }

  /** `"</b>"` does not start a break tag of either spelling. */
  lemma BoldCloseIsNoBreak(w: string, pat: string)
    requires pat == "<br />" || pat == "<br>"
    ensures ReplaceAll("</b>" + w, pat, "\n") == "</b>" + ReplaceAll(w, pat, "\n")
  {
    var s := "</b>" + w;
    assert s[1] != pat[1];
    ReplaceAllSkip(s, pat, "\n");
    assert s[1..] == "/b>" + w;
    ReplaceAllPlain("/b>", w, pat, "\n");
  }

  /** First pass of StripTagsBoldBreak: `"<br />"` occurs nowhere. */
  lemma BoldBreakNoSlashBreak(x: string, y: string)
    requires '<' !in x && '<' !in y
    ensures var s := "<b>" + x + ("</b><br>" + y); ReplaceAll(s, "<br />", "\n") == s
  {
    var p := "<br />";
    var v := "<br>" + y;
    assert ReplaceAll(v, p, "\n") == v by {
      assert v[3] != p[3];
      ReplaceAllSkip(v, p, "\n");
      assert v[1..] == "br>" + y;
      ReplaceAllPlain("br>", y, p, "\n");
      ReplaceAllAbsent(y, p, "\n");
    }
    assert "</b><br>" + y == "</b>" + v;
    BoldCloseIsNoBreak(v, p);
    BoldOpenIsNoBreak(x, "</b>" + v, p);
  }

  /** Second pass of StripTagsBoldBreak: the one `"<br>"` becomes a newline. */
  lemma BoldBreakBreak(x: string, y: string)
    requires '<' !in x && '<' !in y
    ensures ReplaceAll("<b>" + x + ("</b><br>" + y), "<br>", "\n") == "<b>" + x + ("</b>\n" + y)
  {
    var p := "<br>";
    var v := "<br>" + y;
    ReplaceAllHit(p, y, "\n");
    ReplaceAllAbsent(y, p, "\n");
    assert "</b><br>" + y == "</b>" + v;
    BoldCloseIsNoBreak(v, p);
    assert "</b>" + ("\n" + y) == "</b>\n" + y;
    BoldOpenIsNoBreak(x, "</b>" + v, p);
  }

  /** Last pass of StripTagsBoldBreak: both tags go, the text and the
      newline stay. */
  lemma BoldBreakTags(x: string, y: string)
    requires '<' !in x && '<' !in y
    ensures RemoveTags("<b>" + x + ("</b>\n" + y)) == x + ("\n" + y)
  {
    assert "<b>" + x + ("</b>\n" + y) == "<b>" + (x + ("</b>" + ("\n" + y)));
    RemoveTagsTag("<b>", x + ("</b>" + ("\n" + y)));
    RemoveTagsPlain(x, "</b>" + ("\n" + y));
    RemoveTagsTag("</b>", "\n" + y);
    RemoveTagsPlain("\n" + y, []);
    assert "\n" + y + [] == "\n" + y;
  }

  /** An example: `"<b>Hi</b><br>there"` becomes `"Hi\nthere"`. */
  lemma StripTagsExample()
    ensures StripTags("<b>Hi</b><br>there") == "Hi\nthere"
  {
    var x, y := "Hi", "there";
    assert '<' !in x && '<' !in y;
    assert "<b>" + x + ("</b><br>" + y) == "<b>Hi</b><br>there";
    assert x + ("\n" + y) == "Hi\nthere";
    StripTagsBoldBreak(x, y);
  }

  /** The output is never longer than the input. */
  lemma StripTagsShorter(s: string)
    ensures |StripTags(s)| <= |s|
  {
    var a := ReplaceAll(s, "<br />", "\n");
    ReplaceAllLength(s, "<br />", "\n");
    ReplaceAllLength(a, "<br>", "\n");
  }

  /** No newline of the input is removed, and each `<br />` and each `<br>`
      becomes exactly one newline. */
  lemma StripTagsNewlines(s: string)
    ensures var a := ReplaceAll(s, "<br />", "\n");
            Count('\n', StripTags(s)) == Count('\n', s) + Occurrences(s, "<br />") + Occurrences(a, "<br>")
  {
    var a := ReplaceAll(s, "<br />", "\n");
    var b := ReplaceAll(a, "<br>", "\n");
    assert '\n' !in "<br />";
    assert '\n' !in "<br>";
    ReplaceAllCount('\n', s, "<br />", "\n");
    ReplaceAllCount('\n', a, "<br>", "\n");
    RemoveTagsNewlines(b);
  }

  /** No tag is left in the output. */
  lemma StripTagsTagFree(s: string)
    ensures TagFree(StripTags(s))
  {
    RemoveTagsTagFree(ReplaceAll(ReplaceAll(s, "<br />", "\n"), "<br>", "\n"));
  }

  /** Stripping twice is the same as stripping once. */
  lemma StripTagsIdempotent(s: string)
    ensures StripTags(StripTags(s)) == StripTags(s)
  {
    var r := StripTags(s);
    StripTagsTagFree(s);
    assert CloseAt("<br />"[1..]).Some?;
    assert CloseAt("<br>"[1..]).Some?;
    ReplaceAllOfTagFree(r, "<br />", "\n");
    ReplaceAllOfTagFree(r, "<br>", "\n");
    RemoveTagsOfTagFree(r);
  }

  /** A string without `<` comes back unchanged. */
  lemma StripTagsPlainText(s: string)
    requires '<' !in s
    ensures StripTags(s) == s
  {
    ReplaceAllAbsent(s, "<br />", "\n");
    ReplaceAllAbsent(s, "<br>", "\n");
    RemoveTagsOfTagFree(s);
  }
}
