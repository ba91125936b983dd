/** The title the print dialog gives the saved PDF: the full name with every
    run of whitespace turned into one underscore, followed by `_Resume`, or
    just `Resume` when the name is empty. */
module Download {
  import opened Strings

  /** `s.replace(/\s+/g, '_')`: each maximal run of whitespace becomes one `_`.
      A whitespace character followed by another contributes nothing; the
      last one of its run contributes the underscore. */
  function CollapseWhitespace(s: string): (r: string)
    ensures NoWhitespace(r)
    ensures |r| <= |s|
    ensures |r| == 0 <==> |s| == 0
    ensures s != [] && IsWhitespace(s[0]) ==> r[0] == '_'
    ensures s != [] && !IsWhitespace(s[0]) ==> r[0] == s[0]
  {
    if s == [] then []
    else if IsWhitespace(s[0]) && |s| > 1 && IsWhitespace(s[1]) then CollapseWhitespace(s[1..])
    else
      var rest := CollapseWhitespace(s[1..]);
      var c := if IsWhitespace(s[0]) then '_' else s[0];
      assert forall i :: 0 <= i < |rest| ==> ([c] + rest)[i + 1] == rest[i];
      [c] + rest
  }

  /** A string without whitespace is left as it is. */
  lemma {:induction false} CollapsePlain(s: string)
    requires NoWhitespace(s)
    ensures CollapseWhitespace(s) == s
  {
    if s != [] {
      NoWhitespaceTail(s);
      CollapsePlain(s[1..]);
      assert s == [s[0]] + s[1..];
    }
  }

  /** A non-empty run of whitespace alone becomes one underscore. */
  lemma {:induction false} CollapseBlank(s: string)
    requires s != [] && forall i :: 0 <= i < |s| ==> IsWhitespace(s[i])
    ensures CollapseWhitespace(s) == "_"
  {
    if |s| > 1 {
      assert IsWhitespace(s[1]);
      CollapseBlank(s[1..]);
    }
  }

  /** The characters of `s` that are not whitespace, in order. */
  function DropWhitespace(s: string): (r: string)
    ensures NoWhitespace(r)
  {
    if s == [] then []
    else if IsWhitespace(s[0]) then DropWhitespace(s[1..])
    else [s[0]] + DropWhitespace(s[1..])
  }

  /** The characters of `s` other than `_`, in order. */
  function DropUnderscores(s: string): (r: string)
    ensures '_' !in r
  {
    if s == [] then []
    else if s[0] == '_' then DropUnderscores(s[1..])
    else [s[0]] + DropUnderscores(s[1..])
  }

  lemma NoUnderscoreTail(s: string)
    requires s != [] && '_' !in s
    ensures '_' !in s[1..]
  {
    forall i | 0 <= i < |s| - 1 ensures s[1..][i] != '_' {
      assert s[1..][i] == s[i + 1];
    }
  }

  /** When the name has no underscore of its own, the collapse keeps every
      other character in order: removing the underscores gives the name
      without its whitespace. */
  lemma {:induction false} CollapseKeepsText(s: string)
    requires '_' !in s
    ensures DropUnderscores(CollapseWhitespace(s)) == DropWhitespace(s)
  {
    if s != [] {
      NoUnderscoreTail(s);
      CollapseKeepsText(s[1..]);
      assert s[0] != '_';
    }
  }

  /** No two underscores are adjacent when the name has none of its own:
      a run of whitespace becomes one underscore, however long the run. */
  lemma {:induction false} CollapseNoDoubleUnderscore(s: string)
    requires '_' !in s
    ensures forall i :: 0 <= i < |CollapseWhitespace(s)| - 1 ==>
      !(CollapseWhitespace(s)[i] == '_' && CollapseWhitespace(s)[i + 1] == '_')
  {
    if s != [] {
      NoUnderscoreTail(s);
      CollapseNoDoubleUnderscore(s[1..]);
      var rest := CollapseWhitespace(s[1..]);
      if !(IsWhitespace(s[0]) && |s| > 1 && IsWhitespace(s[1])) {
        var c := if IsWhitespace(s[0]) then '_' else s[0];
        assert CollapseWhitespace(s) == [c] + rest;
        if c == '_' && rest != [] {
          assert rest[0] == s[1];
        }
      }
    }
  }

  /** The name the file falls back to, and the suffix a given name gets. */
  const Fallback: string := "Resume"
  const Suffix: string := "_Resume"

  lemma SuffixNoWhitespace()
    ensures NoWhitespace(Suffix) && NoWhitespace(Fallback)
  {
    assert Suffix == ['_'] + Fallback;
    assert Fallback == ['R', 'e', 's', 'u', 'm', 'e'];
  }

  /** The `documentTitle` handed to the print hook. */
  function DocumentTitle(fullName: string): (title: string)
    ensures NoWhitespace(title)
    ensures fullName == "" ==> title == Fallback
    ensures fullName != "" ==> |title| > |Suffix| && title[|title| - |Suffix|..] == Suffix
    ensures fullName != "" ==> title == CollapseWhitespace(fullName) + Suffix
  {
    SuffixNoWhitespace();
    if fullName != "" then
      var c := CollapseWhitespace(fullName);
      var title := c + Suffix;
      assert forall i :: 0 <= i < |c| ==> title[i] == c[i];
      assert forall i :: |c| <= i < |title| ==> title[i] == Suffix[i - |c|];
      title
    else Fallback
  }

  /** A name with no whitespace is used as it is. */
  lemma TitleOfPlainName(fullName: string)
    requires fullName != "" && NoWhitespace(fullName)
    ensures DocumentTitle(fullName) == fullName + Suffix
  {
    CollapsePlain(fullName);
  }

  /** A name of blanks only is truthy, so it yields `__Resume`, not `Resume`. */
  lemma TitleOfBlankName(fullName: string)
    requires fullName != []
    requires forall i :: 0 <= i < |fullName| ==> IsWhitespace(fullName[i])
    ensures DocumentTitle(fullName) == "_" + Suffix
  {
    CollapseBlank(fullName);
  }

  /** A run of whitespace before a word becomes one underscore. */
  lemma {:induction false} CollapseGap(gap: string, word: string)
    requires gap != [] && forall i :: 0 <= i < |gap| ==> IsWhitespace(gap[i])
    requires word != [] && !IsWhitespace(word[0])
    ensures CollapseWhitespace(gap + word) == "_" + CollapseWhitespace(word)
  {
    var s := gap + word;
    assert s[0] == gap[0];
    if |gap| == 1 {
      assert s[1..] == word;
    } else {
      assert s[1..] == gap[1..] + word;
      assert s[1] == gap[1];
      CollapseGap(gap[1..], word);
    }
  }

  /** A prefix without whitespace is copied as it is. */
  lemma {:induction false} CollapsePlainPrefix(a: string, t: string)
    requires NoWhitespace(a)
    ensures CollapseWhitespace(a + t) == a + CollapseWhitespace(t)
  {
    if a == [] {
      assert a + t == t;
    } else {
      NoWhitespaceTail(a);
      CollapsePlainPrefix(a[1..], t);
      assert (a + t)[0] == a[0];
      assert (a + t)[1..] == a[1..] + t;
      assert a == [a[0]] + a[1..];
    }
  }

  /** Two words separated by any run of whitespace are joined by one underscore:
      `"Jane  Doe"` becomes `Jane_Doe_Resume`. */
  lemma TitleOfTwoWords(first: string, gap: string, last: string)
    requires first != [] && NoWhitespace(first)
    requires last != [] && NoWhitespace(last)
    requires gap != [] && forall i :: 0 <= i < |gap| ==> IsWhitespace(gap[i])
    ensures DocumentTitle(first + gap + last) == first + "_" + last + Suffix
  {
    assert first + gap + last == first + (gap + last);
    CollapsePlainPrefix(first, gap + last);
    CollapseGap(gap, last);
    CollapsePlain(last);
  }
}
